/** The feed: every tick goes to each aggregator subscribed to its instrument. */
module LiveFeeds {
  import opened Wrappers
  import opened Aggregation

  datatype CandleReceived = CandleReceived(instrumentKey: string, interval: Interval, candle: Candle)

  function TicksOf(ticks: seq<Quote>, key: string): seq<Quote> {
    if ticks == [] then []
    else TicksOf(ticks[..|ticks|-1], key) + (if ticks[|ticks|-1].instrumentKey == key then [ticks[|ticks|-1]] else [])
  }

  function CandlesOf(events: seq<CandleReceived>, key: string, interval: Interval): seq<Candle> {
    if events == [] then []
    else
      var last := events[|events|-1];
      CandlesOf(events[..|events|-1], key, interval)
      + (if last.instrumentKey == key && last.interval == interval then [last.candle] else [])
  }

  lemma CandlesOfAppend(events: seq<CandleReceived>, e: CandleReceived, key: string, interval: Interval)
    ensures CandlesOf(events + [e], key, interval)
         == CandlesOf(events, key, interval)
            + (if e.instrumentKey == key && e.interval == interval then [e.candle] else [])
  {
    assert (events + [e])[..|events|] == events;
  }

  lemma TicksOfAppend(ticks: seq<Quote>, q: Quote, key: string)
    ensures TicksOf(ticks + [q], key) == TicksOf(ticks, key) + (if q.instrumentKey == key then [q] else [])
  {
    assert (ticks + [q])[..|ticks|] == ticks;
  }

  lemma NothingYet()
    ensures forall key :: TicksOf([], key) == []
    ensures forall key, interval :: CandlesOf([], key, interval) == []
  {
  }

  // ---- What a subscription receives: an interval listed n times is published n times ----

  function SecondsOf(interval: Interval): int { if interval == M1 then 60 else 900 }

  /** Subscriptions to this instrument and interval among the first `n`. */
  function Subscribed(aggregators: seq<CandleAggregator>, n: nat, key: string, interval: Interval): nat
    requires n <= |aggregators|
  {
    if n == 0 then 0
    else
      var a := aggregators[n-1];
      Subscribed(aggregators, n - 1, key, interval)
      + (if a.instrumentKey == key && a.interval == interval then 1 else 0)
  }

  function Times(c: Option<Candle>, n: nat): seq<Candle> {
    if c.None? then [] else seq(n, _ => c.value)
  }

  /** Each candle `n` times in a row. */
  function Stutter(bars: seq<Candle>, n: nat): seq<Candle> {
    if bars == [] then [] else Stutter(bars[..|bars|-1], n) + Times(Some(bars[|bars|-1]), n)
  }

  lemma StutterAppend(bars: seq<Candle>, c: Candle, n: nat)
    ensures Stutter(bars + [c], n) == Stutter(bars, n) + Times(Some(c), n)
  {
    assert (bars + [c])[..|bars|] == bars;
  }

  lemma {:induction false} StutterOnce(bars: seq<Candle>)
    ensures Stutter(bars, 1) == bars
  {
    if bars != [] { StutterOnce(bars[..|bars|-1]); }
  }

  /** All bars of an instrument's ticks, and those that a later tick has completed. */
  function AllBars(ticks: seq<Quote>, key: string, interval: Interval): seq<Candle> {
    BarsOf(TicksOf(ticks, key), SecondsOf(interval))
  }

  function DoneBars(ticks: seq<Quote>, key: string, interval: Interval): seq<Candle> {
    var bars := AllBars(ticks, key, interval);
    if bars == [] then [] else bars[..|bars|-1]
  }

  /** A tick of another instrument changes none of an instrument's bars; alone, its ticks have the bars they make up. */
  lemma FeedsApart(ticks: seq<Quote>, q: Quote, key: string, interval: Interval)
    ensures q.instrumentKey != key ==> AllBars(ticks + [q], key, interval) == AllBars(ticks, key, interval)
    ensures (forall k :: 0 <= k < |ticks| ==> ticks[k].instrumentKey == key) ==>
      AllBars(ticks, key, interval) == BarsOf(ticks, SecondsOf(interval))
  {
    hide BarsOf, TicksOf;
    TicksOfAppend(ticks, q, key);
    if forall k :: 0 <= k < |ticks| ==> ticks[k].instrumentKey == key { OwnTicks(ticks, key); }
    assert TicksOf(ticks, key) + [] == TicksOf(ticks, key);
  }

  lemma {:induction false} OwnTicks(ticks: seq<Quote>, key: string)
    requires forall k :: 0 <= k < |ticks| ==> ticks[k].instrumentKey == key
    ensures TicksOf(ticks, key) == ticks
  {
    if ticks != [] { OwnTicks(ticks[..|ticks|-1], key); }
  }

  /** The bar that tick `q` completes. */
  function Completes(ticks: seq<Quote>, q: Quote, key: string, interval: Interval): Option<Candle> {
    var done := DoneBars(ticks + [q], key, interval);
    if |done| > |DoneBars(ticks, key, interval)| then Some(done[|done|-1]) else None
  }

  lemma CompletesIs(ticks: seq<Quote>, q: Quote, key: string, interval: Interval)
    ensures DoneBars(ticks + [q], key, interval)
         == DoneBars(ticks, key, interval) + Times(Completes(ticks, q, key, interval), 1)
    ensures q.instrumentKey != key ==> Completes(ticks, q, key, interval) == None
  {
    hide Bucket, BarsOf, TicksOf;
    TicksOfAppend(ticks, q, key);
    var own := TicksOf(ticks, key);
    if q.instrumentKey == key {
      BarsAppend(own, q, SecondsOf(interval));
      var bars, after := BarsOf(own, SecondsOf(interval)), BarsOf(own + [q], SecondsOf(interval));
      if |after| == |bars| { assert after[..|after|-1] == bars[..|bars|-1]; } else { assert after[..|bars|] == bars; }
    } else {
      assert own + [] == own;
    }
  }

  function InProgress(ticks: seq<Quote>, key: string, interval: Interval): Option<Candle> {
    var bars := AllBars(ticks, key, interval);
    if bars == [] then None else Some(bars[|bars|-1])
  }

  /** The aggregators are visited in turn, either with a tick or to end the session. */
  datatype Round = Tick(q: Quote) | End

  /** What the round brings a subscription, and what it has received afterwards. */
  function Brings(ticks: seq<Quote>, round: Round, key: string, interval: Interval): Option<Candle> {
    match round
    case Tick(q) => Completes(ticks, q, key, interval)
    case End => InProgress(ticks, key, interval)
  }

  function After(ticks: seq<Quote>, round: Round, key: string, interval: Interval): seq<Candle> {
    match round
    case Tick(q) => DoneBars(ticks + [q], key, interval)
    case End => AllBars(ticks, key, interval)
  }

  lemma AfterIs(ticks: seq<Quote>, round: Round, key: string, interval: Interval)
    ensures After(ticks, round, key, interval)
         == DoneBars(ticks, key, interval) + Times(Brings(ticks, round, key, interval), 1)
  {
    hide AllBars, Completes;
    match round {
      case Tick(q) => CompletesIs(ticks, q, key, interval);
      case End =>
    }
  }

  /** Every subscription has received what was completed before, and the first `k` what the round brings them. */
  ghost predicate Midway(aggregators: seq<CandleAggregator>, k: nat, events: seq<CandleReceived>, ticks: seq<Quote>,
                         round: Round)
    requires k <= |aggregators|
  {
    forall key, interval ::
      CandlesOf(events, key, interval)
        == Stutter(DoneBars(ticks, key, interval), Subscribed(aggregators, |aggregators|, key, interval))
           + Times(Brings(ticks, round, key, interval), Subscribed(aggregators, k, key, interval))
  }

  /** Every subscription has received its completed bars. */
  ghost predicate Received(aggregators: seq<CandleAggregator>, events: seq<CandleReceived>, ticks: seq<Quote>) {
    forall key, interval ::
      CandlesOf(events, key, interval)
        == Stutter(DoneBars(ticks, key, interval), Subscribed(aggregators, |aggregators|, key, interval))
  }

  lemma MidwayStarts(aggregators: seq<CandleAggregator>, events: seq<CandleReceived>, ticks: seq<Quote>, round: Round)
    requires Received(aggregators, events, ticks)
    ensures Midway(aggregators, 0, events, ticks, round)
  {
    hide CandlesOf, Stutter, DoneBars, Brings;
  }

  /** The k-th aggregator published what the round brought it. */
  lemma MidwayNext(aggregators: seq<CandleAggregator>, k: nat, events: seq<CandleReceived>, ticks: seq<Quote>,
                   round: Round, e: Option<CandleReceived>)
    requires k < |aggregators| && Midway(aggregators, k, events, ticks, round)
    requires var a := aggregators[k];
      && Brings(ticks, round, a.instrumentKey, a.interval) == (if e.Some? then Some(e.value.candle) else None)
      && (e.Some? ==> e.value.instrumentKey == a.instrumentKey && e.value.interval == a.interval)
    ensures Midway(aggregators, k + 1, if e.Some? then events + [e.value] else events, ticks, round)
  {
    hide CandlesOf, Stutter, DoneBars, Brings;
    var after := if e.Some? then events + [e.value] else events;
    forall key, interval
      ensures CandlesOf(after, key, interval)
           == Stutter(DoneBars(ticks, key, interval), Subscribed(aggregators, |aggregators|, key, interval))
              + Times(Brings(ticks, round, key, interval), Subscribed(aggregators, k + 1, key, interval))
    {
      if e.Some? { CandlesOfAppend(events, e.value, key, interval); }
    }
  }

  /** Once all were visited, every subscription has received everything, as often as it is listed. */
  lemma MidwayEnds(aggregators: seq<CandleAggregator>, events: seq<CandleReceived>, ticks: seq<Quote>, round: Round)
    requires Midway(aggregators, |aggregators|, events, ticks, round)
    ensures forall key, interval ::
      CandlesOf(events, key, interval)
        == Stutter(After(ticks, round, key, interval), Subscribed(aggregators, |aggregators|, key, interval))
  {
    hide CandlesOf, Stutter, DoneBars, Brings, After;
    forall key, interval
      ensures CandlesOf(events, key, interval)
           == Stutter(After(ticks, round, key, interval), Subscribed(aggregators, |aggregators|, key, interval))
    {
      var n := Subscribed(aggregators, |aggregators|, key, interval);
      var done, next := DoneBars(ticks, key, interval), Brings(ticks, round, key, interval);
      AfterIs(ticks, round, key, interval);
      if next.Some? {
        StutterAppend(done, next.value, n);
        assert Times(next, 1) == [next.value];
      } else {
        assert done + [] == done && Stutter(done, n) + [] == Stutter(done, n);
      }
    }
  }

  lemma TickEnds(aggregators: seq<CandleAggregator>, events: seq<CandleReceived>, ticks: seq<Quote>, q: Quote)
    requires Midway(aggregators, |aggregators|, events, ticks, Tick(q))
    ensures Received(aggregators, events, ticks + [q])
  {
    hide CandlesOf, Stutter, DoneBars, Brings;
    MidwayEnds(aggregators, events, ticks, Tick(q));
  }

  lemma SameLast(x: seq<Candle>, c: Option<Candle>, d: Option<Candle>)
    requires x + Times(c, 1) == x + Times(d, 1)
    ensures c == d
  {
    var a, b := x + Times(c, 1), x + Times(d, 1);
    assert |a| == |b|;
    if c.Some? && d.Some? { assert a[|x|] == c.value && b[|x|] == d.value; }
  }

  lemma NothingReceived(aggregators: seq<CandleAggregator>)
    ensures Received(aggregators, [], [])
  {
    NothingYet();
  }

  ghost predicate Separate(aggregators: seq<CandleAggregator>) {
    forall j, k :: 0 <= j < k < |aggregators| ==> aggregators[j] != aggregators[k]
  }

  class LiveFeed {
    const aggregators: seq<CandleAggregator>
    ghost var ticks: seq<Quote>           // ticks of this session
    ghost var events: seq<CandleReceived> // candles published this session

    /** One aggregator per subscription, up to date with the session; completed bars were published to each. */
    ghost predicate Valid()
      reads this, aggregators
    {
      && Separate(aggregators)
      && (forall k :: 0 <= k < |aggregators| ==> InSession(aggregators[k], ticks))
      && Received(aggregators, events, ticks)
    }

    constructor (aggregators: seq<CandleAggregator>)
      requires Separate(aggregators)
      requires forall k :: 0 <= k < |aggregators| ==>
        aggregators[k].Valid() && aggregators[k].fed == [] && aggregators[k].emitted == []
      ensures Valid() && ticks == [] && events == [] && this.aggregators == aggregators
    {
      this.aggregators := aggregators;
      ticks, events := [], [];
      NothingReceived(aggregators);
    }

    /** Fan one tick out; publish whatever bar each aggregator completes. */
    method OnTick(q: Quote) returns (published: seq<CandleReceived>)
      requires Valid()
      modifies this, aggregators
      ensures Valid() && ticks == old(ticks) + [q] && events == old(events) + published
    {
      hide InSession, Received, Separate;
      published := FeedAll(aggregators, q, ticks, events);
      ticks, events := ticks + [q], events + published;
    }

    /**
     * End of session: with the bars in progress published too, each subscription has received exactly the
     * bars of its instrument's ticks at its own resolution, as often as it is listed, and an instrument
     * subscribed once at both has received fifteen-minute bars that regroup its one-minute bars.
     */
    method Flush() returns (published: seq<CandleReceived>)
      requires Valid()
      modifies this, aggregators
      ensures Valid() && ticks == [] && events == []
      ensures forall key, interval ::
        CandlesOf(old(events) + published, key, interval)
          == Stutter(AllBars(old(ticks), key, interval), Subscribed(aggregators, |aggregators|, key, interval))
      ensures forall key | SubscribedAtBoth(aggregators, key) ::
        CandlesOf(old(events) + published, key, M15) == Regroup(CandlesOf(old(events) + published, key, M1), 900)
    {
      hide InSession, CandlesOf, Stutter, AllBars, Received, Regroup;
      published := FlushAll(aggregators, ticks, events);
      PublishedNests(aggregators, events + published, ticks);
      ticks, events := [], [];
      NothingReceived(aggregators);
      FlushedInSession(aggregators);
    }
  }

  lemma FlushedInSession(aggregators: seq<CandleAggregator>)
    requires forall k :: 0 <= k < |aggregators| ==> aggregators[k].Valid() && aggregators[k].fed == []
    ensures forall k :: 0 <= k < |aggregators| ==> InSession(aggregators[k], [])
  {
  }

  /** Offer a tick to each aggregator in turn. */
  method FeedAll(aggregators: seq<CandleAggregator>, q: Quote, ghost ticks: seq<Quote>,
                 ghost events: seq<CandleReceived>)
    returns (published: seq<CandleReceived>)
    requires Separate(aggregators) && Received(aggregators, events, ticks)
    requires forall k :: 0 <= k < |aggregators| ==> InSession(aggregators[k], ticks)
    modifies aggregators
    ensures forall k :: 0 <= k < |aggregators| ==> InSession(aggregators[k], ticks + [q])
    ensures Received(aggregators, events + published, ticks + [q])
  {
    hide CandlesOf, TicksOf, Midway, Received, DoneBars, Brings;
    published := [];
    MidwayStarts(aggregators, events, ticks, Tick(q));
    assert events + [] == events;
    for k := 0 to |aggregators|
      invariant forall j :: 0 <= j < k ==> InSession(aggregators[j], ticks + [q])
      invariant forall j :: k <= j < |aggregators| ==> InSession(aggregators[j], ticks)
      invariant Midway(aggregators, k, events + published, ticks, Tick(q))
    {
      var e := FeedOne(aggregators[k], q, ticks);
      MidwayNext(aggregators, k, events + published, ticks, Tick(q), e);
      if e.Some? {
        assert events + (published + [e.value]) == (events + published) + [e.value];
        published := published + [e.value];
      }
    }
    TickEnds(aggregators, events + published, ticks, q);
  }

  /** Flush each aggregator in turn. */
  method FlushAll(aggregators: seq<CandleAggregator>, ghost ticks: seq<Quote>, ghost events: seq<CandleReceived>)
    returns (published: seq<CandleReceived>)
    requires Separate(aggregators) && Received(aggregators, events, ticks)
    requires forall k :: 0 <= k < |aggregators| ==> InSession(aggregators[k], ticks)
    modifies aggregators
    ensures forall k :: 0 <= k < |aggregators| ==> aggregators[k].Valid() && aggregators[k].fed == []
    ensures forall key, interval ::
      CandlesOf(events + published, key, interval)
        == Stutter(AllBars(ticks, key, interval), Subscribed(aggregators, |aggregators|, key, interval))
  {
    hide CandlesOf, TicksOf, Midway, Received, AllBars, DoneBars, Brings;
    published := [];
    MidwayStarts(aggregators, events, ticks, End);
    assert events + [] == events;
    for k := 0 to |aggregators|
      invariant forall j :: 0 <= j < k ==> aggregators[j].Valid() && aggregators[j].fed == []
      invariant forall j :: k <= j < |aggregators| ==> InSession(aggregators[j], ticks)
      invariant Midway(aggregators, k, events + published, ticks, End)
    {
      var e := FlushOne(aggregators[k], ticks);
      MidwayNext(aggregators, k, events + published, ticks, End, e);
      if e.Some? {
        assert events + (published + [e.value]) == (events + published) + [e.value];
        published := published + [e.value];
      }
    }
    MidwayEnds(aggregators, events + published, ticks, End);
  }

  /** One instrument subscribed once at one minute and once at fifteen. */
  predicate SubscribedAtBoth(aggregators: seq<CandleAggregator>, key: string) {
    Subscribed(aggregators, |aggregators|, key, M1) == 1 && Subscribed(aggregators, |aggregators|, key, M15) == 1
  }

  lemma PublishedNests(aggregators: seq<CandleAggregator>, events: seq<CandleReceived>, ticks: seq<Quote>)
    requires forall key, interval ::
      CandlesOf(events, key, interval)
        == Stutter(AllBars(ticks, key, interval), Subscribed(aggregators, |aggregators|, key, interval))
    ensures forall key | SubscribedAtBoth(aggregators, key) ::
      CandlesOf(events, key, M15) == Regroup(CandlesOf(events, key, M1), 900)
  {
    hide CandlesOf, Stutter, Regroup, BarsOf;
    forall key | SubscribedAtBoth(aggregators, key)
      ensures CandlesOf(events, key, M15) == Regroup(CandlesOf(events, key, M1), 900)
    {
      StutterOnce(AllBars(ticks, key, M1));
      StutterOnce(AllBars(ticks, key, M15));
      FeedNests(ticks, events, key);
    }
  }

  /** Offer a tick to one aggregator; it is only fed ticks of its own instrument. */
  method FeedOne(a: CandleAggregator, q: Quote, ghost ticks: seq<Quote>) returns (e: Option<CandleReceived>)
    requires InSession(a, ticks)
    modifies a
    ensures InSession(a, ticks + [q])
    ensures e.Some? ==> e.value.instrumentKey == a.instrumentKey && e.value.interval == a.interval
    ensures Brings(ticks, Tick(q), a.instrumentKey, a.interval) == if e.Some? then Some(e.value.candle) else None
  {
    hide BarsOf, Completes, TicksOf;
    TicksOfAppend(ticks, q, a.instrumentKey);
    CompletesIs(ticks, q, a.instrumentKey, a.interval);
    e := None;
    EmittedIsDone(a, ticks);
    if a.instrumentKey == q.instrumentKey {
      ghost var done := a.emitted;
      var completed := a.AddTick(q);
      EmittedIsDone(a, ticks + [q]);
      assert a.emitted == done + Times(completed.value, 1);
      SameLast(done, completed.value, Completes(ticks, q, a.instrumentKey, a.interval));
      if completed.value.Some? { e := Some(CandleReceived(a.instrumentKey, a.interval, completed.value.value)); }
    }
  }

  method FlushOne(a: CandleAggregator, ghost ticks: seq<Quote>) returns (e: Option<CandleReceived>)
    requires InSession(a, ticks)
    modifies a
    ensures a.Valid() && a.fed == []
    ensures e.Some? ==> e.value.instrumentKey == a.instrumentKey && e.value.interval == a.interval
    ensures Brings(ticks, End, a.instrumentKey, a.interval) == if e.Some? then Some(e.value.candle) else None
  {
    hide BarsOf, TicksOf;
    EmittedIsDone(a, ticks);
    var completed := a.Flush();
    e := if completed.Some? then Some(CandleReceived(a.instrumentKey, a.interval, completed.value)) else None;
  }

  /** The aggregator has seen exactly its instrument's ticks. */
  ghost predicate InSession(a: CandleAggregator, ticks: seq<Quote>)
    reads a
  {
    a.Valid() && a.fed == TicksOf(ticks, a.instrumentKey)
  }

  /** What an aggregator has completed are the completed bars of its ticks. */
  lemma EmittedIsDone(a: CandleAggregator, ticks: seq<Quote>)
    requires InSession(a, ticks)
    ensures a.emitted == DoneBars(ticks, a.instrumentKey, a.interval)
  {
    hide TicksOf;
    if a.fed != [] { assert BarsOf(a.fed, a.Seconds()) != []; }
  }

  /**
   * Resolution nesting through the feed: an instrument subscribed at both resolutions receives, over a
   * session, 15-minute bars that are the 15-minute regrouping of the 1-minute bars it receives.
   */
  lemma FeedNests(ticks: seq<Quote>, events: seq<CandleReceived>, key: string)
    requires CandlesOf(events, key, M1) == BarsOf(TicksOf(ticks, key), 60)
    requires CandlesOf(events, key, M15) == BarsOf(TicksOf(ticks, key), 900)
    ensures CandlesOf(events, key, M15) == Regroup(CandlesOf(events, key, M1), 900)
  {
    hide BarsOf, Regroup;
    BarsNest(TicksOf(ticks, key));
  }
}
