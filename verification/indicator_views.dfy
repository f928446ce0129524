/**
 * The two views a strategy can be given: one over precomputed batch series, bound to a bar index,
 * and one fed bar by bar. They are proved to show the same things.
 */
module IndicatorViews {
  import opened Wrappers
  import opened IndicatorsBatch
  import opened IndicatorsStreaming

  /** A declared indicator. The Bollinger deviation uses a square root supplied by a library. */
  datatype Spec =
    | SMA(period: int)
    | EMA(period: int)
    | RSI(period: int)
    | ATR(period: int)
    | MACD(fast: int, slow: int, signal: int)
    | BOLLINGER(bands: int, numStd: real, sqrt: real -> real)
    | VWAP
    | OBV
    | SUPERTREND(period: int, multiplier: real)
    | TRUE_RANGE
    | UNKNOWN(kind: string)

  /** Parameters no constructor or batch function raises ValueError for. */
  predicate LegalParams(spec: Spec) {
    match spec
    case SMA(p) => p >= 1
    case EMA(p) => p >= 1
    case RSI(p) => p >= 1
    case ATR(p) => p >= 1
    case MACD(f, s, g) => 1 <= f < s && g >= 1
    case BOLLINGER(p, _, _) => p >= 2
    case SUPERTREND(p, _) => p >= 1
    case _ => true
  }

  predicate Computable(spec: Spec) { LegalParams(spec) && !spec.UNKNOWN? }

  /** Kinds without an incremental state object. */
  predicate BatchOnly(spec: Spec) { spec.VWAP? || spec.OBV? || spec.SUPERTREND? || spec.TRUE_RANGE? }

  predicate Streamable(spec: Spec) { Computable(spec) && !BatchOnly(spec) }

  /** Multi-column indicators expand to one key per column. */
  function ExpandNames(name: string, spec: Spec): (keys: seq<string>)
    ensures 1 <= |keys| <= 3
  {
    match spec
    case MACD(_, _, _) => [name + ".macd", name + ".signal", name + ".hist"]
    case BOLLINGER(_, _, _) => [name + ".middle", name + ".upper", name + ".lower"]
    case SUPERTREND(_, _) => [name + ".supertrend", name + ".direction"]
    case _ => [name]
  }

  function Closes(bars: seq<Bar>): (r: seq<real>)
    ensures |r| == |bars|
  {
    seq(|bars|, i requires 0 <= i < |bars| => bars[i].close)
  }

  /** Every column of one indicator at bar i. */
  function ColumnsAt(spec: Spec, bars: seq<Bar>, i: nat): (r: seq<Option<real>>)
    requires Computable(spec) && i < |bars|
    ensures |r| == |ExpandNames("", spec)|
  {
    var closes := Closes(bars);
    match spec
    case SMA(p) => [SmaAt(closes, p, i)]
    case EMA(p) => [EmaAt(closes, p, i)]
    case RSI(p) => [RsiAt(closes, p, i)]
    case ATR(p) => [AtrAt(bars, p, i)]
    case MACD(f, s, g) =>
      var line, sig := MacdLineAt(closes, f, s, i), MacdSignalAt(closes, f, s, g, i);
      [line, sig, Minus(line, sig)]
    case BOLLINGER(p, k, sqrt) =>
      (match BollingerAt(closes, p, k, sqrt, i)
       case None => [None, None, None]
       case Some((middle, upper, lower)) => [Some(middle), Some(upper), Some(lower)])
    case VWAP => [VwapAt(bars, i)]
    case OBV => [Some(ObvAt(bars, i) as real)]
    case SUPERTREND(p, m) => var (v, direction) := SupertrendAt(bars, p, m, i); [v, Some(direction as real)]
    case TRUE_RANGE => [Some(TrueRangeAt(bars, i))]
  }

  function Column(spec: Spec, c: nat, bars: seq<Bar>): (r: Series)
    requires Computable(spec) && c < |ExpandNames("", spec)|
    ensures |r| == |bars|
  {
    seq(|bars|, i requires 0 <= i < |bars| => ColumnsAt(spec, bars, i)[c])
  }

  // ---- Causality of every batch indicator ----

  lemma SmaIsCausal(v: seq<real>, w: seq<real>, period: nat, i: nat)
    requires period >= 1 && i < |v| && i < |w| && v[..i+1] == w[..i+1]
    ensures SmaAt(v, period, i) == SmaAt(w, period, i)
    ensures i + 1 >= period ==> v[i+1-period..i+1] == w[i+1-period..i+1]
  {
    if i + 1 >= period {
      assert v[i+1-period..i+1] == v[..i+1][i+1-period..];
      assert w[i+1-period..i+1] == w[..i+1][i+1-period..];
    }
  }

  lemma {:induction false} DropNonePrefix(s: Series, t: Series)
    ensures DropNone(s) <= DropNone(s + t)
  {
    if t == [] {
      assert s + t == s;
    } else {
      assert (s + t)[..|s + t|-1] == s + t[..|t|-1];
      DropNonePrefix(s, t[..|t|-1]);
    }
  }

  lemma MacdSignalIsCausal(v: seq<real>, w: seq<real>, fast: nat, slow: nat, signal: nat, i: nat)
    requires 1 <= fast < slow && signal >= 1 && i < |v| && i < |w| && v[..i+1] == w[..i+1]
    ensures MacdSignalAt(v, fast, slow, signal, i) == MacdSignalAt(w, fast, slow, signal, i)
  {
    hide EmaAt, DropNone;
    var a, b := MacdLine(v, fast, slow), MacdLine(w, fast, slow);
    MacdLineIsCausal(v, w, fast, slow, i + 1);
    assert a[..i] == a[..i+1][..i] && b[..i] == b[..i+1][..i];
    assert a[i] == a[..i+1][i] && b[i] == b[..i+1][i];
    if a[i].Some? {
      var shared := DropNone(a[..i+1]);
      var rank := |DropNone(a[..i])|;
      assert a == a[..i+1] + a[i+1..] && b == b[..i+1] + b[i+1..];
      DropNonePrefix(a[..i+1], a[i+1..]);
      DropNonePrefix(b[..i+1], b[i+1..]);
      DropNoneRank(a[..i+1], i);
      assert a[..i+1][..i] == a[..i];
      var da, db := DropNone(a), DropNone(b);
      DropNoneRank(a, i);
      DropNoneRank(b, i);
      assert da[..rank+1] == da[..|shared|][..rank+1] && db[..rank+1] == db[..|shared|][..rank+1];
      EmaIsCausal(da, db, signal, rank);
    }
  }

  lemma TrueRangesCausal(b1: seq<Bar>, b2: seq<Bar>, n: nat)
    requires n <= |b1| && n <= |b2| && b1[..n] == b2[..n]
    ensures TrueRanges(b1)[..n] == TrueRanges(b2)[..n]
  {
    forall i | 0 <= i < n
      ensures TrueRangeAt(b1, i) == TrueRangeAt(b2, i)
    {
      assert b1[i] == b1[..n][i] && b2[i] == b2[..n][i];
      if i > 0 { assert b1[i-1] == b1[..n][i-1] && b2[i-1] == b2[..n][i-1]; }
    }
  }

  lemma {:induction false} DayTotalsAreCausal(b1: seq<Bar>, b2: seq<Bar>, n: nat, day: int)
    requires n <= |b1| && n <= |b2| && b1[..n] == b2[..n]
    ensures DayVolume(b1, n, day) == DayVolume(b2, n, day) && DayTurnover(b1, n, day) == DayTurnover(b2, n, day)
  {
    if n > 0 {
      assert b1[..n-1] == b1[..n][..n-1] && b2[..n-1] == b2[..n][..n-1];
      assert b1[n-1] == b1[..n][n-1] && b2[n-1] == b2[..n][n-1];
      DayTotalsAreCausal(b1, b2, n - 1, day);
    }
  }

  lemma {:induction false} ObvIsCausal(b1: seq<Bar>, b2: seq<Bar>, i: nat)
    requires i < |b1| && i < |b2| && b1[..i+1] == b2[..i+1]
    ensures ObvAt(b1, i) == ObvAt(b2, i)
  {
    if i > 0 {
      assert b1[..i] == b1[..i+1][..i] && b2[..i] == b2[..i+1][..i];
      assert b1[i] == b1[..i+1][i] && b2[i] == b2[..i+1][i];
      assert b1[i-1] == b1[..i+1][i-1] && b2[i-1] == b2[..i+1][i-1];
      ObvIsCausal(b1, b2, i - 1);
    }
  }

  lemma {:induction false} TrendIsCausal(b1: seq<Bar>, b2: seq<Bar>, period: nat, multiplier: real, i: nat)
    requires 1 <= period <= i + 1 && i < |b1| && i < |b2| && b1[..i+1] == b2[..i+1]
    ensures TrendAt(b1, period, multiplier, i) == TrendAt(b2, period, multiplier, i)
  {
    hide NextTrend, WilderAt, Mid;
    assert b1[i] == b1[..i+1][i] && b2[i] == b2[..i+1][i];
    TrueRangesCausal(b1, b2, i + 1);
    WilderIsCausal(TrueRanges(b1), TrueRanges(b2), period, i);
    if i >= period {
      assert b1[..i] == b1[..i+1][..i] && b2[..i] == b2[..i+1][..i];
      assert b1[i-1] == b1[..i+1][i-1] && b2[i-1] == b2[..i+1][i-1];
      TrendIsCausal(b1, b2, period, multiplier, i - 1);
    }
  }

  /** No indicator's value at bar i depends on a later bar. */
  lemma ColumnsAreCausal(spec: Spec, b1: seq<Bar>, b2: seq<Bar>, i: nat)
    requires Computable(spec) && i < |b1| && i < |b2| && b1[..i+1] == b2[..i+1]
    ensures ColumnsAt(spec, b1, i) == ColumnsAt(spec, b2, i)
  {
    hide SmaAt, EmaAt, WilderAvg, RsiValue, WilderAt, MacdSignalAt, TrueRange, Bands, TrueRanges, DayVolume,
         DayTurnover, ObvAt, TrendAt;
    var v, w := Closes(b1), Closes(b2);
    assert v[..i+1] == w[..i+1] by {
      forall k | 0 <= k < i + 1 ensures v[k] == w[k] {
        assert b1[k] == b1[..i+1][k] && b2[k] == b2[..i+1][k];
      }
    }
    match spec {
      case SMA(p) => SmaIsCausal(v, w, p, i);
      case EMA(p) => EmaIsCausal(v, w, p, i);
      case RSI(p) => if i >= p { WilderAvgIsCausal(v, w, p, i); }
      case ATR(p) =>
        TrueRangesCausal(b1, b2, i + 1);
        WilderIsCausal(TrueRanges(b1), TrueRanges(b2), p, i);
      case MACD(f, s, g) =>
        EmaIsCausal(v, w, f, i);
        EmaIsCausal(v, w, s, i);
        MacdSignalIsCausal(v, w, f, s, g, i);
      case BOLLINGER(p, k, sqrt) => SmaIsCausal(v, w, p, i);
      case VWAP =>
        assert b1[i] == b1[..i+1][i] && b2[i] == b2[..i+1][i];
        DayTotalsAreCausal(b1, b2, i + 1, b1[i].day);
      case OBV => ObvIsCausal(b1, b2, i);
      case SUPERTREND(p, m) => if i + 1 >= p { TrendIsCausal(b1, b2, p, m, i); }
      case TRUE_RANGE =>
        assert b1[i] == b1[..i+1][i] && b2[i] == b2[..i+1][i];
        if i > 0 { assert b1[i-1] == b1[..i+1][i-1] && b2[i-1] == b2[..i+1][i-1]; }
    }
  }

  // ---- Where each column becomes valid ----

  /**
   * First bar at which column c is valid; from there on it stays valid. There is none for the volume-weighted
   * price, which is invalid at the start of any day until something is traded.
   */
  function ValidFrom(spec: Spec, c: nat): nat
    requires Computable(spec) && !spec.VWAP? && c < |ExpandNames("", spec)|
  {
    match spec
    case SMA(p) => p - 1
    case EMA(p) => p - 1
    case RSI(p) => p
    case ATR(p) => p - 1
    case MACD(f, s, g) => if c == 0 then s - 1 else s + g - 2
    case BOLLINGER(p, _, _) => p - 1
    case OBV => 0
    case SUPERTREND(p, _) => if c == 0 then p - 1 else 0
    case TRUE_RANGE => 0
  }

  lemma ColumnValidIff(spec: Spec, c: nat, bars: seq<Bar>, i: nat)
    requires Computable(spec) && c < |ExpandNames("", spec)| && i < |bars|
    ensures ColumnsAt(spec, bars, i)[c].Some?
       <==> if spec.VWAP? then DayVolume(bars, i + 1, bars[i].day) != 0 else i >= ValidFrom(spec, c)
  {
    hide TrendAt, DayVolume, DayTurnover, ObvAt, EmaStep, WilderStep, Mean, WilderAvg, RsiValue, MacdSignalAt,
         MacdLineAt, Bands;
    match spec {
      case MACD(f, s, g) => MacdValidFrom(Closes(bars), f, s, g, i);
      case _ =>
    }
  }

  // ---- The precomputed set ----

  /** An insertion-ordered dictionary. */
  type Dict<V> = seq<(string, V)>

  predicate HasKey<V>(d: Dict<V>, key: string) { exists k :: 0 <= k < |d| && d[k].0 == key }

  function IndexOf<V>(d: Dict<V>, key: string): (k: nat)
    requires HasKey(d, key)
    ensures k < |d| && d[k].0 == key
  {
    if d[0].0 == key then 0 else 1 + IndexOf(d[1..], key)
  }

  /** Assign in place when the key exists, otherwise append. */
  function Put<V>(d: Dict<V>, key: string, value: V): Dict<V> {
    if HasKey(d, key) then d[IndexOf(d, key) := (key, value)] else d + [(key, value)]
  }

  /** Store one indicator's columns, first `n` of them. */
  function PutColumns(d: Dict<Series>, name: string, spec: Spec, bars: seq<Bar>, n: nat): Dict<Series>
    requires Computable(spec) && n <= |ExpandNames("", spec)|
  {
    if n == 0 then d
    else Put(PutColumns(d, name, spec, bars, n - 1), ExpandNames(name, spec)[n-1], Column(spec, n - 1, bars))
  }

  type Specs = seq<(string, Spec)>

  predicate AllComputable(specs: Specs) { forall k :: 0 <= k < |specs| ==> Computable(specs[k].1) }

  function IndicatorSet(bars: seq<Bar>, specs: Specs): Dict<Series>
    requires AllComputable(specs)
  {
    if specs == [] then []
    else
      var (name, spec) := specs[|specs|-1];
      PutColumns(IndicatorSet(bars, specs[..|specs|-1]), name, spec, bars, |ExpandNames("", spec)|)
  }

  /** What the first spec that cannot be computed raises. */
  function FirstSpecError(specs: Specs): (e: Option<Error>)
    ensures e.None? <==> AllComputable(specs)
    decreases |specs|
  {
    if specs == [] then None
    else
      var spec := specs[0].1;
      if spec.UNKNOWN? then Some(UnknownIndicatorKind)
      else if !LegalParams(spec) then Some(ValueError)
      else FirstSpecError(specs[1..])
  }

  method ComputeIndicatorSet(bars: seq<Bar>, specs: Specs) returns (r: Result<Dict<Series>>)
    ensures match FirstSpecError(specs)
            case Some(e) => r == Err(e)
            case None => r == Ok(IndicatorSet(bars, specs))
  {
    hide PutColumns, ExpandNames, LegalParams;
    var result: Dict<Series> := [];
    for k := 0 to |specs|
      invariant AllComputable(specs[..k]) && FirstSpecError(specs) == FirstSpecError(specs[k..])
      invariant result == IndicatorSet(bars, specs[..k])
    {
      assert specs[..k+1][..k] == specs[..k];
      var (name, spec) := specs[k];
      if spec.UNKNOWN? { return Err(UnknownIndicatorKind); }
      if !LegalParams(spec) { return Err(ValueError); }
      result := StoreColumns(result, name, spec, bars);
      assert specs[k..][0] == specs[k] && specs[k..][1..] == specs[k+1..];
    }
    assert specs[..|specs|] == specs;
    r := Ok(result);
  }

  method StoreColumns(d: Dict<Series>, name: string, spec: Spec, bars: seq<Bar>) returns (r: Dict<Series>)
    requires Computable(spec)
    ensures r == PutColumns(d, name, spec, bars, |ExpandNames("", spec)|)
  {
    hide Column, Put;
    r := d;
    var keys := ExpandNames(name, spec);
    for c := 0 to |keys|
      invariant r == PutColumns(d, name, spec, bars, c)
    {
      r := Put(r, keys[c], Column(spec, c, bars));
    }
  }

  predicate AllLength(d: Dict<Series>, n: nat) { forall k :: 0 <= k < |d| ==> |d[k].1| == n }

  lemma {:induction false} SetLength(bars: seq<Bar>, specs: Specs)
    requires AllComputable(specs)
    ensures AllLength(IndicatorSet(bars, specs), |bars|)
  {
    if specs != [] {
      var (name, spec) := specs[|specs|-1];
      SetLength(bars, specs[..|specs|-1]);
      PutColumnsLength(IndicatorSet(bars, specs[..|specs|-1]), name, spec, bars, |ExpandNames("", spec)|);
    }
  }

  lemma {:induction false} PutColumnsLength(d: Dict<Series>, name: string, spec: Spec, bars: seq<Bar>, n: nat)
    requires Computable(spec) && n <= |ExpandNames("", spec)| && AllLength(d, |bars|)
    ensures AllLength(PutColumns(d, name, spec, bars, n), |bars|)
  {
    if n > 0 { PutColumnsLength(d, name, spec, bars, n - 1); }
  }

  /** `a` is `b` cut to its first n bars. */
  predicate IsPrefix(a: Dict<Series>, b: Dict<Series>, n: nat) {
    && |a| == |b| && AllLength(a, n)
    && forall k :: 0 <= k < |a| ==> a[k].0 == b[k].0 && a[k].1 <= b[k].1
  }

  lemma {:induction false} SameIndex<V, W>(a: Dict<V>, b: Dict<W>, key: string)
    requires |a| == |b| && forall k :: 0 <= k < |a| ==> a[k].0 == b[k].0
    ensures HasKey(a, key) <==> HasKey(b, key)
    ensures HasKey(a, key) ==> IndexOf(a, key) == IndexOf(b, key)
    decreases |a|
  {
    if HasKey(b, key) {
      var k :| 0 <= k < |b| && b[k].0 == key;
      assert a[k].0 == key;
    }
    if HasKey(a, key) {
      var k :| 0 <= k < |a| && a[k].0 == key;
      assert b[k].0 == key;
      if a[0].0 != key {
        assert a[1..][k-1].0 == key;
        SameIndex(a[1..], b[1..], key);
      }
    }
  }

  lemma PutPrefix(a: Dict<Series>, b: Dict<Series>, key: string, x: Series, y: Series, n: nat)
    requires IsPrefix(a, b, n) && |x| == n && x <= y
    ensures IsPrefix(Put(a, key, x), Put(b, key, y), n)
  {
    SameIndex(a, b, key);
  }

  lemma {:induction false} PutColumnsPrefix(a: Dict<Series>, b: Dict<Series>, name: string, spec: Spec, bars: seq<Bar>,
                                            n: nat, c: nat)
    requires Computable(spec) && c <= |ExpandNames("", spec)| && n <= |bars| && IsPrefix(a, b, n)
    ensures IsPrefix(PutColumns(a, name, spec, bars[..n], c), PutColumns(b, name, spec, bars, c), n)
  {
    hide Column, IsPrefix, Put;
    if c > 0 {
      PutColumnsPrefix(a, b, name, spec, bars, n, c - 1);
      ColumnPrefix(spec, c - 1, bars, n);
      PutPrefix(PutColumns(a, name, spec, bars[..n], c - 1), PutColumns(b, name, spec, bars, c - 1),
                ExpandNames(name, spec)[c-1], Column(spec, c - 1, bars[..n]), Column(spec, c - 1, bars), n);
    }
  }

  lemma ColumnPrefix(spec: Spec, c: nat, bars: seq<Bar>, n: nat)
    requires Computable(spec) && c < |ExpandNames("", spec)| && n <= |bars|
    ensures Column(spec, c, bars[..n]) <= Column(spec, c, bars)
  {
    hide ColumnsAt;
    forall i | 0 <= i < n
      ensures ColumnsAt(spec, bars[..n], i) == ColumnsAt(spec, bars, i)
    {
      assert bars[..n][..i+1] == bars[..i+1];
      ColumnsAreCausal(spec, bars[..n], bars, i);
    }
  }

  /** Precomputing over a truncated series gives the truncated precomputed set: no indicator looks ahead. */
  lemma {:induction false} IndicatorSetIsCausal(bars: seq<Bar>, specs: Specs, n: nat)
    requires AllComputable(specs) && n <= |bars|
    ensures IsPrefix(IndicatorSet(bars[..n], specs), IndicatorSet(bars, specs), n)
    decreases |specs|
  {
    hide Column;
    if specs != [] {
      var (name, spec) := specs[|specs|-1];
      var rest := specs[..|specs|-1];
      IndicatorSetIsCausal(bars, rest, n);
      PutColumnsPrefix(IndicatorSet(bars[..n], rest), IndicatorSet(bars, rest), name, spec, bars, n,
                       |ExpandNames("", spec)|);
    }
  }

  // ---- The first bar at which every series is valid ----

  predicate AllValidAt(d: Dict<Series>, i: nat) {
    forall k :: 0 <= k < |d| ==> i < |d[k].1| && d[k].1[i].Some?
  }

  /** `f` is the earliest all-valid bar, or the series length when there is none. */
  predicate IsFirstAllValid(d: Dict<Series>, f: nat) {
    if |d| == 0 then f == 0
    else
      && f <= |d[0].1|
      && (forall i :: 0 <= i < f ==> !AllValidAt(d, i))
      && (f < |d[0].1| ==> AllValidAt(d, f))
  }

  method FirstAllValidIndex(d: Dict<Series>) returns (f: nat)
    requires |d| > 0 ==> AllLength(d, |d[0].1|)
    ensures IsFirstAllValid(d, f)
  {
    if |d| == 0 { return 0; }
    var n := |d[0].1|;
    var valid := seq(n, _ => true);
    for k := 0 to |d|
      invariant |valid| == n
      invariant forall i :: 0 <= i < n ==> (valid[i] <==> forall j :: 0 <= j < k ==> d[j].1[i].Some?)
    {
      valid := seq(n, i requires 0 <= i < n => valid[i] && d[k].1[i].Some?);
    }
    f := 0;
    while f < n && !valid[f]
      invariant 0 <= f <= n
      invariant forall i :: 0 <= i < f ==> !valid[i]
    {
      f := f + 1;
    }
    forall i | 0 <= i < f ensures !AllValidAt(d, i) {
      assert !valid[i];
    }
  }

  /** The index itself, as a search from bar i. */
  function FirstAllValid(d: Dict<Series>): (f: nat)
    requires |d| > 0 ==> AllLength(d, |d[0].1|)
    ensures IsFirstAllValid(d, f)
  {
    if |d| == 0 then 0 else FirstValidFrom(d, 0)
  }

  function FirstValidFrom(d: Dict<Series>, i: nat): (f: nat)
    requires |d| > 0 && i <= |d[0].1|
    ensures i <= f <= |d[0].1| && (forall j :: i <= j < f ==> !AllValidAt(d, j)) && (f < |d[0].1| ==> AllValidAt(d, f))
    decreases |d[0].1| - i
  {
    if i == |d[0].1| || AllValidAt(d, i) then i else FirstValidFrom(d, i + 1)
  }

  lemma FirstAllValidUnique(d: Dict<Series>, f: nat, g: nat)
    requires IsFirstAllValid(d, f) && IsFirstAllValid(d, g)
    ensures f == g
  {
  }

  /** On a truncated series the first all-valid bar is the same one, or the truncation point if that comes first. */
  lemma FirstAllValidOnPrefix(a: Dict<Series>, b: Dict<Series>, n: nat, m: nat, f: nat, g: nat)
    requires IsPrefix(a, b, n) && AllLength(b, m) && n <= m
    requires IsFirstAllValid(a, f) && IsFirstAllValid(b, g)
    ensures |a| > 0 ==> f == if g < n then g else n
    ensures |a| == 0 ==> f == g == 0
  {
    forall i | 0 <= i < n ensures AllValidAt(a, i) <==> AllValidAt(b, i) {
      assert forall k :: 0 <= k < |a| ==> a[k].1[i] == b[k].1[i];
    }
    if |a| > 0 {
      assert |a[0].1| == n && |b[0].1| == m;
    }
  }
}
