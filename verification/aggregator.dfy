/** Ticks grouped into bars, and bars grouped into longer bars. */
module Aggregation {
  import opened Wrappers
  import opened Costs

  datatype Interval = M1 | M15 | D1

  /** Only intervals below a day can be built from ticks. */
  function IntervalSeconds(interval: Interval): Option<int> {
    match interval
    case M1 => Some(60)
    case M15 => Some(900)
    case D1 => None
  }

  /** One trade; `ltt` is its time in microseconds since the Unix epoch. */
  datatype Quote = Quote(instrumentKey: string, ltp: real, ltq: int, ltt: int)

  /** A bar; `ts` is its bucket start in seconds since the Unix epoch. */
  datatype Candle = Candle(ts: int, open: real, high: real, low: real, close: real, volume: int)

  /** Whole seconds, truncated toward zero. */
  function Epoch(ltt: int): int { if ltt >= 0 then ltt / 1000000 else -((-ltt) / 1000000) }

  /** Start of the bucket a second falls in. */
  function BucketOf(epoch: int, seconds: int): int
    requires seconds > 0
  {
    epoch - epoch % seconds
  }

  /** A bucket starts on a multiple of its length, and what falls in it is less than that length later. */
  lemma BucketHolds(epoch: int, seconds: int)
    requires seconds > 0
    ensures BucketOf(epoch, seconds) <= epoch < BucketOf(epoch, seconds) + seconds
    ensures BucketOf(epoch, seconds) % seconds == 0
  {
    var q, r := epoch / seconds, epoch % seconds;
    assert epoch - r == q * seconds;
    MultipleHasNoRest(q, seconds);
  }

  /** Minute bars start on a whole minute, quarter-hour bars on a whole quarter of an hour. */
  lemma StartsOnTheClock(epoch: int)
    ensures IntervalSeconds(M1).Some? && IntervalSeconds(M15).Some? && IntervalSeconds(D1).None?
    ensures var minute := BucketOf(epoch, IntervalSeconds(M1).value);
      minute % 60 == 0 && minute <= epoch < minute + 60
    ensures var quarter := BucketOf(epoch, IntervalSeconds(M15).value);
      quarter % 900 == 0 && quarter <= epoch < quarter + 900
  {
    hide BucketOf;
    BucketHolds(epoch, 60);
    BucketHolds(epoch, 900);
  }

  lemma MultipleHasNoRest(q: int, n: int)
    requires n > 0
    ensures (q * n) % n == 0
  {
    RemainderIs(q * n, n, q, 0);
  }

  /** A time since 1970 falls in the second it has begun. */
  lemma EpochHolds(ltt: int)
    requires ltt >= 0
    ensures Epoch(ltt) * 1000000 <= ltt < (Epoch(ltt) + 1) * 1000000
  {
  }

  function Bucket(q: Quote, seconds: int): int
    requires seconds > 0
  {
    BucketOf(Epoch(q.ltt), seconds)
  }

  function Opened(q: Quote, bucket: int): Candle { Candle(bucket, q.ltp, q.ltp, q.ltp, q.ltp, q.ltq) }

  function Extended(c: Candle, q: Quote): Candle {
    c.(high := Max(c.high, q.ltp), low := Min(c.low, q.ltp), close := q.ltp, volume := c.volume + q.ltq)
  }

  /** Every bar so far, the one in progress last. */
  function BarsOf(ticks: seq<Quote>, seconds: int): seq<Candle>
    requires seconds > 0
  {
    if ticks == [] then []
    else AddTo(BarsOf(ticks[..|ticks|-1], seconds), ticks[|ticks|-1], seconds)
  }

  function AddTo(bars: seq<Candle>, q: Quote, seconds: int): seq<Candle>
    requires seconds > 0
  {
    var b := Bucket(q, seconds);
    if bars != [] && bars[|bars|-1].ts == b then bars[..|bars|-1] + [Extended(bars[|bars|-1], q)]
    else bars + [Opened(q, b)]
  }

  // ---- Bars are the maximal runs of ticks in one bucket ----

  /** The runs: a tick joins the last run when it shares its bucket, otherwise it starts a new one. */
  function RunsOf(ticks: seq<Quote>, seconds: int): (runs: seq<seq<Quote>>)
    requires seconds > 0
    ensures forall k :: 0 <= k < |runs| ==> runs[k] != []
  {
    if ticks == [] then [] else JoinRun(RunsOf(ticks[..|ticks|-1], seconds), ticks[|ticks|-1], seconds)
  }

  function JoinRun(runs: seq<seq<Quote>>, q: Quote, seconds: int): (r: seq<seq<Quote>>)
    requires seconds > 0 && forall k :: 0 <= k < |runs| ==> runs[k] != []
    ensures forall k :: 0 <= k < |r| ==> r[k] != []
  {
    if runs != [] && Bucket(runs[|runs|-1][0], seconds) == Bucket(q, seconds)
    then runs[..|runs|-1] + [runs[|runs|-1] + [q]]
    else runs + [[q]]
  }

  function Flatten(runs: seq<seq<Quote>>): seq<Quote> {
    if runs == [] then [] else Flatten(runs[..|runs|-1]) + runs[|runs|-1]
  }

  /** The runs partition the ticks in order, stay in one bucket, and cannot be joined further. */
  ghost predicate MaximalRuns(runs: seq<seq<Quote>>, ticks: seq<Quote>, seconds: int)
    requires seconds > 0
  {
    && Flatten(runs) == ticks
    && (forall k :: 0 <= k < |runs| ==> runs[k] != [])
    && (forall k, j :: 0 <= k < |runs| && 0 <= j < |runs[k]| ==>
          Bucket(runs[k][j], seconds) == Bucket(runs[k][0], seconds))
    && (forall k :: 0 < k < |runs| ==> Bucket(runs[k][0], seconds) != Bucket(runs[k-1][0], seconds))
  }

  lemma RunGrows(runs: seq<seq<Quote>>, ticks: seq<Quote>, q: Quote, seconds: int)
    requires seconds > 0 && runs != [] && MaximalRuns(runs, ticks, seconds)
    requires Bucket(q, seconds) == Bucket(runs[|runs|-1][0], seconds)
    ensures MaximalRuns(runs[..|runs|-1] + [runs[|runs|-1] + [q]], ticks + [q], seconds)
  {
    hide Bucket;
    var n := |runs| - 1;
    var grown := runs[..n] + [runs[n] + [q]];
    assert grown[..n] == runs[..n];
    assert Flatten(grown) == Flatten(runs[..n]) + (runs[n] + [q]);
    assert Flatten(runs[..n]) + (runs[n] + [q]) == Flatten(runs) + [q];
    assert grown[n][0] == runs[n][0];
  }

  lemma RunStarts(runs: seq<seq<Quote>>, ticks: seq<Quote>, q: Quote, seconds: int)
    requires seconds > 0 && MaximalRuns(runs, ticks, seconds)
    requires runs != [] ==> Bucket(q, seconds) != Bucket(runs[|runs|-1][0], seconds)
    ensures MaximalRuns(runs + [[q]], ticks + [q], seconds)
  {
    hide Bucket;
    var more := runs + [[q]];
    assert more[..|runs|] == runs;
    assert Flatten(more) == Flatten(runs) + [q];
  }

  lemma {:induction false} RunsAreMaximal(ticks: seq<Quote>, seconds: int)
    requires seconds > 0
    ensures MaximalRuns(RunsOf(ticks, seconds), ticks, seconds)
  {
    hide Bucket, MaximalRuns;
    if ticks == [] {
      NoRuns(seconds);
    } else {
      var before, q := ticks[..|ticks|-1], ticks[|ticks|-1];
      RunsAreMaximal(before, seconds);
      assert ticks == before + [q];
      var runs := RunsOf(before, seconds);
      if runs != [] && Bucket(runs[|runs|-1][0], seconds) == Bucket(q, seconds) {
        RunGrows(runs, before, q, seconds);
      } else {
        RunStarts(runs, before, q, seconds);
      }
    }
  }

  lemma NoRuns(seconds: int)
    requires seconds > 0
    ensures MaximalRuns([], [], seconds)
  {
  }

  /** Taking the last tick off a split into maximal runs: the last run loses it, and goes if that was all it had. */
  function WithoutLastTick(runs: seq<seq<Quote>>): seq<seq<Quote>>
    requires runs != [] && runs[|runs|-1] != []
  {
    var n := |runs| - 1;
    if |runs[n]| == 1 then runs[..n] else runs[..n] + [runs[n][..|runs[n]|-1]]
  }

  lemma LastTickRemoved(runs: seq<seq<Quote>>, ticks: seq<Quote>, seconds: int)
    requires seconds > 0 && runs != [] && MaximalRuns(runs, ticks, seconds)
    ensures ticks != [] && runs[|runs|-1][|runs[|runs|-1]|-1] == ticks[|ticks|-1]
    ensures MaximalRuns(WithoutLastTick(runs), ticks[..|ticks|-1], seconds)
  {
    hide Bucket;
    var n := |runs| - 1;
    FlattenWithoutLast(runs);
    var fewer := WithoutLastTick(runs);
    forall k | 0 <= k < |fewer| ensures fewer[k] != [] && fewer[k] == runs[k][..|fewer[k]|] {
    }
  }

  lemma FlattenWithoutLast(runs: seq<seq<Quote>>)
    requires runs != [] && runs[|runs|-1] != []
    ensures Flatten(runs) == Flatten(WithoutLastTick(runs)) + [runs[|runs|-1][|runs[|runs|-1]|-1]]
  {
    var n := |runs| - 1;
    var m := |runs[n]| - 1;
    if m > 0 {
      var fewer := WithoutLastTick(runs);
      assert fewer[..n] == runs[..n];
      assert runs[n] == runs[n][..m] + [runs[n][m]];
      assert Flatten(fewer) == Flatten(runs[..n]) + runs[n][..m];
    }
  }

  lemma LastTickRejoins(runs: seq<seq<Quote>>, ticks: seq<Quote>, seconds: int)
    requires seconds > 0 && runs != [] && MaximalRuns(runs, ticks, seconds)
    ensures MaximalRuns(WithoutLastTick(runs), ticks[..|ticks|-1], seconds)
    ensures ticks != [] && runs == JoinRun(WithoutLastTick(runs), ticks[|ticks|-1], seconds)
  {
    hide Bucket, Flatten;
    LastTickRemoved(runs, ticks, seconds);
    var n := |runs| - 1;
    assert runs[n] == runs[n][..|runs[n]|-1] + [ticks[|ticks|-1]];
    assert runs == runs[..n] + [runs[n]];
  }

  /** There is only one way to split ticks into maximal runs. */
  lemma {:induction false} MaximalRunsAreUnique(runs: seq<seq<Quote>>, ticks: seq<Quote>, seconds: int)
    requires seconds > 0 && MaximalRuns(runs, ticks, seconds)
    ensures runs == RunsOf(ticks, seconds)
    decreases |ticks|
  {
    hide Bucket, JoinRun, WithoutLastTick;
    if runs != [] {
      LastTickRejoins(runs, ticks, seconds);
      MaximalRunsAreUnique(WithoutLastTick(runs), ticks[..|ticks|-1], seconds);
    }
  }

  function VolumeOf(run: seq<Quote>): int {
    if run == [] then 0 else VolumeOf(run[..|run|-1]) + run[|run|-1].ltq
  }

  /** First, maximum, minimum and last price of a run, and its total quantity. */
  ghost predicate SummarizesRun(c: Candle, run: seq<Quote>, seconds: int)
    requires seconds > 0 && run != []
  {
    && c.ts == Bucket(run[0], seconds)
    && c.open == run[0].ltp && c.close == run[|run|-1].ltp
    && (forall j :: 0 <= j < |run| ==> c.low <= run[j].ltp <= c.high)
    && (exists j :: 0 <= j < |run| && run[j].ltp == c.high)
    && (exists j :: 0 <= j < |run| && run[j].ltp == c.low)
    && c.volume == VolumeOf(run)
  }

  lemma ExtendSummary(c: Candle, run: seq<Quote>, q: Quote, seconds: int)
    requires seconds > 0 && run != [] && SummarizesRun(c, run, seconds)
    ensures SummarizesRun(Extended(c, q), run + [q], seconds)
  {
    var r := run + [q];
    assert r[..|run|] == run;
    var h :| 0 <= h < |run| && run[h].ltp == c.high;
    var l :| 0 <= l < |run| && run[l].ltp == c.low;
    assert r[h] == run[h] && r[l] == run[l] && r[|run|] == q;
  }

  ghost predicate AllSummarize(bars: seq<Candle>, runs: seq<seq<Quote>>, seconds: int)
    requires seconds > 0
  {
    && |bars| == |runs|
    && forall k :: 0 <= k < |bars| ==> runs[k] != [] && SummarizesRun(bars[k], runs[k], seconds)
  }

  lemma LastSummaryGrows(bars: seq<Candle>, runs: seq<seq<Quote>>, q: Quote, seconds: int)
    requires seconds > 0 && bars != [] && AllSummarize(bars, runs, seconds)
    ensures bars[|bars|-1].ts == Bucket(runs[|runs|-1][0], seconds)
    ensures AllSummarize(bars[..|bars|-1] + [Extended(bars[|bars|-1], q)], runs[..|runs|-1] + [runs[|runs|-1] + [q]],
                         seconds)
  {
    hide SummarizesRun, Bucket;
    SummaryTs(bars[|bars|-1], runs[|runs|-1], seconds);
    ExtendSummary(bars[|bars|-1], runs[|runs|-1], q, seconds);
  }

  lemma NextSummaryStarts(bars: seq<Candle>, runs: seq<seq<Quote>>, q: Quote, seconds: int)
    requires seconds > 0 && AllSummarize(bars, runs, seconds)
    ensures AllSummarize(bars + [Opened(q, Bucket(q, seconds))], runs + [[q]], seconds)
  {
    hide SummarizesRun, Bucket;
    OpenSummary(q, seconds);
  }

  /** Bar grouping: the bars are exactly the summaries of the maximal runs, one each, in order. */
  lemma {:induction false} BarsSummarizeRuns(ticks: seq<Quote>, seconds: int)
    requires seconds > 0
    ensures AllSummarize(BarsOf(ticks, seconds), RunsOf(ticks, seconds), seconds)
  {
    hide SummarizesRun, Bucket;
    if ticks != [] {
      var before, q := ticks[..|ticks|-1], ticks[|ticks|-1];
      BarsSummarizeRuns(before, seconds);
      var bars, runs := BarsOf(before, seconds), RunsOf(before, seconds);
      if bars != [] { LastSummaryGrows(bars, runs, q, seconds); }
      NextSummaryStarts(bars, runs, q, seconds);
    }
  }

  lemma SummaryTs(c: Candle, run: seq<Quote>, seconds: int)
    requires seconds > 0 && run != [] && SummarizesRun(c, run, seconds)
    ensures c.ts == Bucket(run[0], seconds)
  {
  }

  lemma OpenSummary(q: Quote, seconds: int)
    requires seconds > 0
    ensures SummarizesRun(Opened(q, Bucket(q, seconds)), [q], seconds)
  {
    assert [q][..0] == [];
    assert [q][0].ltp == q.ltp;
  }

  // ---- Conservation and order ----

  function TotalVolume(bars: seq<Candle>): int {
    if bars == [] then 0 else TotalVolume(bars[..|bars|-1]) + bars[|bars|-1].volume
  }

  lemma {:induction false} VolumeConserved(ticks: seq<Quote>, seconds: int)
    requires seconds > 0
    ensures TotalVolume(BarsOf(ticks, seconds)) == VolumeOf(ticks)
  {
    hide Bucket;
    if ticks != [] {
      VolumeConserved(ticks[..|ticks|-1], seconds);
      var bars, bars' := BarsOf(ticks[..|ticks|-1], seconds), BarsOf(ticks, seconds);
      assert bars'[..|bars'|-1] == if |bars'| == |bars| then bars[..|bars|-1] else bars;
    }
  }

  lemma BucketMonotone(a: int, b: int, seconds: int)
    requires a <= b && seconds > 0
    ensures BucketOf(a, seconds) <= BucketOf(b, seconds)
  {
    var q, r := a / seconds, b / seconds;
    assert BucketOf(a, seconds) == q * seconds && BucketOf(b, seconds) == r * seconds;
    if q > r {
      assert q * seconds >= (r + 1) * seconds;
    }
  }

  lemma EpochMonotone(a: int, b: int)
    requires a <= b
    ensures Epoch(a) <= Epoch(b)
  {
  }

  lemma TickBucketMonotone(p: Quote, q: Quote, seconds: int)
    requires p.ltt <= q.ltt && seconds > 0
    ensures Bucket(p, seconds) <= Bucket(q, seconds)
  {
    hide Epoch, BucketOf;
    EpochMonotone(p.ltt, q.ltt);
    BucketMonotone(Epoch(p.ltt), Epoch(q.ltt), seconds);
  }

  ghost predicate StartsIncrease(bars: seq<Candle>) {
    forall j, k :: 0 <= j < k < |bars| ==> bars[j].ts < bars[k].ts
  }

  lemma AddToKeepsOrder(bars: seq<Candle>, q: Quote, seconds: int)
    requires seconds > 0 && StartsIncrease(bars) && (bars != [] ==> bars[|bars|-1].ts <= Bucket(q, seconds))
    ensures var r := AddTo(bars, q, seconds); r != [] && StartsIncrease(r) && r[|r|-1].ts == Bucket(q, seconds)
  {
    hide Bucket;
  }

  ghost predicate NeverBack(ticks: seq<Quote>) {
    forall j, k :: 0 <= j < k < |ticks| ==> ticks[j].ltt <= ticks[k].ltt
  }

  /** When tick times never decrease, bar starts strictly increase. */
  lemma {:induction false} BarStartsIncrease(ticks: seq<Quote>, seconds: int)
    requires seconds > 0 && NeverBack(ticks)
    ensures var bars := BarsOf(ticks, seconds);
      && StartsIncrease(bars)
      && (bars != [] ==> ticks != [] && bars[|bars|-1].ts == Bucket(ticks[|ticks|-1], seconds))
  {
    hide Bucket, StartsIncrease, AddTo;
    if ticks == [] {
      NoBars();
    } else {
      var before, q := ticks[..|ticks|-1], ticks[|ticks|-1];
      BarStartsIncrease(before, seconds);
      if before != [] {
        assert before[|before|-1] == ticks[|ticks|-2];
        TickBucketMonotone(before[|before|-1], q, seconds);
      }
      AddToKeepsOrder(BarsOf(before, seconds), q, seconds);
    }
  }

  lemma NoBars()
    ensures StartsIncrease([])
  {
  }

  // ---- Resolution nesting ----

  function Merged(c: Candle, b: Candle): Candle {
    c.(high := Max(c.high, b.high), low := Min(c.low, b.low), close := b.close, volume := c.volume + b.volume)
  }

  /** Group finished bars into longer ones by the bucket of their start. */
  function Regroup(bars: seq<Candle>, seconds: int): seq<Candle>
    requires seconds > 0
  {
    if bars == [] then [] else MergeInto(Regroup(bars[..|bars|-1], seconds), bars[|bars|-1], seconds)
  }

  function MergeInto(longer: seq<Candle>, b: Candle, seconds: int): seq<Candle>
    requires seconds > 0
  {
    var bucket := BucketOf(b.ts, seconds);
    if longer != [] && longer[|longer|-1].ts == bucket then longer[..|longer|-1] + [Merged(longer[|longer|-1], b)]
    else longer + [b.(ts := bucket)]
  }

  /** A minute lies within one quarter of an hour. */
  lemma BucketsNest(epoch: int)
    ensures BucketOf(BucketOf(epoch, 60), 900) == BucketOf(epoch, 900)
  {
    var q, r := epoch / 900, epoch % 900;
    var a, b := r / 60, r % 60;
    assert epoch == 60 * (15 * q + a) + b && 0 <= a < 15;
    RemainderIs(epoch, 60, 15 * q + a, b);
    RemainderIs(epoch - b, 900, q, 60 * a);
  }

  lemma RemainderIs(n: int, d: int, q: int, r: int)
    requires d > 0 && n == d * q + r && 0 <= r < d
    ensures n % d == r
  {
    var k, m := n / d - q, n % d;
    assert d * k == r - m && -d < r - m < d;
    NoMultipleBetween(d, k);
  }

  lemma NoMultipleBetween(d: int, k: int)
    requires d > 0 && -d < d * k < d
    ensures k == 0
  {
  }

  lemma MergeExtends(longer: seq<Candle>, b: Candle, q: Quote)
    ensures var r, r' := MergeInto(longer, b, 900), MergeInto(longer, Extended(b, q), 900);
      && r != [] && r[|r|-1].ts == BucketOf(b.ts, 900) && r' == r[..|r|-1] + [Extended(r[|r|-1], q)]
  {
    hide BucketOf;
    if longer != [] { MergedExtends(longer[|longer|-1], b, q); }
  }

  lemma MergedExtends(c: Candle, b: Candle, q: Quote)
    ensures Merged(c, Extended(b, q)) == Extended(Merged(c, b), q)
  {
  }

  /** Extending the last short bar by a tick extends the long bar it was merged into. */
  lemma RegroupExtends(bars: seq<Candle>, q: Quote)
    requires bars != []
    ensures var last := bars[|bars|-1];
      var r, r' := Regroup(bars, 900), Regroup(bars[..|bars|-1] + [Extended(last, q)], 900);
      r != [] && r' == r[..|r|-1] + [Extended(r[|r|-1], q)] && r[|r|-1].ts == BucketOf(last.ts, 900)
  {
    hide BucketOf, MergeInto, Extended;
    var last := bars[|bars|-1];
    MergeExtends(Regroup(bars[..|bars|-1], 900), last, q);
    var changed := bars[..|bars|-1] + [Extended(last, q)];
    assert changed[..|changed|-1] == bars[..|bars|-1];
  }

  lemma RegroupOpens(bars: seq<Candle>, q: Quote)
    ensures Regroup(bars + [Opened(q, Bucket(q, 60))], 900) == AddTo(Regroup(bars, 900), q, 900)
  {
    hide BucketOf;
    BucketsNest(Epoch(q.ltt));
    var started := Opened(q, Bucket(q, 60));
    assert (bars + [started])[..|bars|] == bars;
  }

  /** Resolution nesting: 15-minute bars of the ticks are the 15-minute regrouping of their 1-minute bars. */
  lemma {:induction false} BarsNest(ticks: seq<Quote>)
    ensures Regroup(BarsOf(ticks, 60), 900) == BarsOf(ticks, 900)
  {
    hide Regroup, Extended, Opened, Merged, BucketOf;
    if ticks == [] {
      NothingToRegroup();
    } else {
      var before, q := ticks[..|ticks|-1], ticks[|ticks|-1];
      BarsNest(before);
      var short := BarsOf(before, 60);
      BucketsNest(Epoch(q.ltt));
      if short != [] && short[|short|-1].ts == Bucket(q, 60) {
        RegroupExtends(short, q);
      } else {
        RegroupOpens(short, q);
      }
    }
  }

  lemma NothingToRegroup()
    ensures Regroup([], 900) == []
  {
  }

  // ---- The aggregator ----

  lemma BarsAppend(ticks: seq<Quote>, q: Quote, seconds: int)
    requires seconds > 0
    ensures BarsOf(ticks + [q], seconds) == AddTo(BarsOf(ticks, seconds), q, seconds)
    ensures ticks == [] ==> BarsOf(ticks, seconds) == []
  {
    hide Bucket;
    assert (ticks + [q])[..|ticks|] == ticks;
  }

  class CandleAggregator {
    const instrumentKey: string
    const interval: Interval
    var bucketStart: Option<int>
    var open: real
    var high: real
    var low: real
    var close: real
    var volume: int
    ghost var fed: seq<Quote>      // ticks since the last flush
    ghost var emitted: seq<Candle> // bars returned since the last flush

    function Seconds(): int { if interval == M1 then 60 else 900 }

    ghost predicate Valid()
      reads this
    {
      && IntervalSeconds(interval) == Some(Seconds())
      && emitted + (if bucketStart.None? then [] else [Candle(bucketStart.value, open, high, low, close, volume)])
         == BarsOf(fed, Seconds())
      && (bucketStart.None? <==> fed == [])
    }

    static method Create(instrumentKey: string, interval: Interval) returns (r: Result<CandleAggregator>)
      ensures r.Err? <==> interval == D1
      ensures r.Ok? ==> fresh(r.value) && r.value.Valid() && r.value.fed == [] && r.value.emitted == []
      ensures r.Ok? ==> r.value.instrumentKey == instrumentKey && r.value.interval == interval
    {
      if IntervalSeconds(interval).None? { return Err(ValueError); }
      var a := new CandleAggregator.Init(instrumentKey, interval);
      r := Ok(a);
    }

    constructor Init(instrumentKey: string, interval: Interval)
      requires IntervalSeconds(interval).Some?
      ensures Valid() && fed == [] && emitted == []
      ensures this.instrumentKey == instrumentKey && this.interval == interval
    {
      this.instrumentKey, this.interval := instrumentKey, interval;
      bucketStart, open, high, low, close, volume := None, 0.0, 0.0, 0.0, 0.0, 0;
      fed, emitted := [], [];
    }

    method Snapshot() returns (c: Candle)
      requires bucketStart.Some?
      ensures c == Candle(bucketStart.value, open, high, low, close, volume)
    {
      c := Candle(bucketStart.value, open, high, low, close, volume);
    }

    /** Feed one tick; a tick of another bucket first completes the bar in progress. */
    method AddTick(q: Quote) returns (r: Result<Option<Candle>>)
      requires Valid()
      modifies this
      ensures Valid()
      ensures q.instrumentKey != instrumentKey ==> r == Err(ValueError) && fed == old(fed) && emitted == old(emitted)
      ensures q.instrumentKey == instrumentKey ==>
        r.Ok? && fed == old(fed) + [q] && emitted == old(emitted) + (if r.value.Some? then [r.value.value] else [])
    {
      hide Bucket, BarsOf;
      if q.instrumentKey != instrumentKey { return Err(ValueError); }
      var bucket := Bucket(q, Seconds());
      var completed: Option<Candle> := None;
      ghost var bars := BarsOf(fed, Seconds());
      BarsAppend(fed, q, Seconds());
      if bucketStart.Some? && bucket != bucketStart.value {
        var c := Snapshot();
        completed := Some(c);
        emitted := emitted + [c];
        bucketStart := None;
      }
      if bucketStart.None? {
        bucketStart := Some(bucket);
        open, high, low := q.ltp, q.ltp, q.ltp;
        volume := 0;
      }
      high := Max(high, q.ltp);
      low := Min(low, q.ltp);
      close := q.ltp;
      volume := volume + q.ltq;
      fed := fed + [q];
      r := Ok(completed);
    }

    /** End of session: the bar in progress completes the list of all bars of the ticks fed. */
    method Flush() returns (c: Option<Candle>)
      requires Valid()
      modifies this
      ensures Valid() && fed == [] && emitted == []
      ensures old(emitted) + (if c.Some? then [c.value] else []) == BarsOf(old(fed), Seconds())
    {
      if bucketStart.None? {
        emitted := [];
        return None;
      }
      var candle := Snapshot();
      bucketStart := None;
      fed, emitted := [], [];
      c := Some(candle);
    }
  }
}
