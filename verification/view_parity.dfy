/** What a strategy sees live is what it sees in a backtest. */
module ViewParity {
  import opened Wrappers
  import opened IndicatorsBatch
  import opened IndicatorsStreaming
  import opened IndicatorViews
  import opened ViewColumns
  import opened ViewTables
  import opened LiveViews

  // ---- Valid values of a stretch of a series ----

  lemma {:induction false} DropNoneConcat(s: Series, t: Series)
    ensures DropNone(s + t) == DropNone(s) + DropNone(t)
  {
    if t == [] {
      assert s + t == s;
    } else {
      assert (s + t)[..|s + t|-1] == s + t[..|t|-1];
      DropNoneConcat(s, t[..|t|-1]);
    }
  }

  lemma {:induction false} DropNoneLength(s: Series)
    ensures (forall k :: 0 <= k < |s| ==> s[k].None?) ==> DropNone(s) == []
    ensures (forall k :: 0 <= k < |s| ==> s[k].Some?) ==> |DropNone(s)| == |s|
  {
    if s != [] { DropNoneLength(s[..|s|-1]); }
  }

  /** Invalid up to bar `from`, valid ever after. */
  ghost predicate WarmsUpAt(s: Series, from: nat) {
    forall i :: 0 <= i < |s| ==> (s[i].Some? <==> i >= from)
  }

  lemma LastNOfLastN<T>(v: seq<T>, n: nat, m: nat)
    requires n <= m
    ensures LastN(LastN(v, m), n) == LastN(v, n)
  {
  }

  /** For a series that warms up once, the valid values of the last n bars are the last n valid values. */
  lemma WindowIsLastN(s: Series, from: nat, i: nat, n: nat)
    requires WarmsUpAt(s, from) && i < |s| && n >= 1
    ensures WindowOf(s, i, n) == LastN(DropNone(s[..i+1]), n)
  {
    hide DropNone;
    var lo := if i < n then 0 else i + 1 - n;
    var head, tail := s[..lo], s[lo..i+1];
    assert s[..i+1] == head + tail;
    DropNoneConcat(head, tail);
    DropNoneLength(head);
    DropNoneLength(tail);
    if lo <= from {
      assert DropNone(head) == [];
      TailIsShort(tail);
      assert [] + DropNone(tail) == DropNone(tail);
    }
  }

  lemma {:induction false} TailIsShort(s: Series)
    ensures |DropNone(s)| <= |s|
  {
    if s != [] { TailIsShort(s[..|s|-1]); }
  }

  lemma LastOfHistoryIsLastN(h: seq<real>, n: nat)
    requires n >= 1
    ensures LastOfHistory(h, n) == LastN(h, n)
  {
  }

  /**
   * Window parity for one column: for n >= 1 the bounded live history answers like the batch view
   * exactly when n is within the bound or no history has been lost yet.
   */
  lemma WindowParityIff(s: Series, from: nat, i: nat, n: nat)
    requires WarmsUpAt(s, from) && i < |s| && n >= 1
    ensures var valid := DropNone(s[..i+1]);
      (LastOfHistory(LastN(valid, WINDOW_MAXLEN), n) == WindowOf(s, i, n))
      <==> (n <= WINDOW_MAXLEN || |valid| <= WINDOW_MAXLEN)
  {
    hide DropNone, WindowOf;
    var valid := DropNone(s[..i+1]);
    WindowIsLastN(s, from, i, n);
    LastOfHistoryIsLastN(LastN(valid, WINDOW_MAXLEN), n);
    if n <= WINDOW_MAXLEN { LastNOfLastN(valid, n, WINDOW_MAXLEN); }
  }

  /**
   * For n <= 0 the batch window is empty, but the live one slices from the front of its history:
   * they agree exactly when that history holds at most -n values.
   */
  lemma NonPositiveWindowIff(s: Series, i: nat, h: seq<real>, n: int)
    requires i < |s| && n <= 0
    ensures LastOfHistory(h, n) == WindowOf(s, i, n) <==> |h| <= -n
  {
  }

  /** A series of 501 values, the most recent last. */
  function Counting(n: nat): (s: Series)
    ensures |s| == n
  {
    seq(n, k requires 0 <= k < n => Some(k as real))
  }

  /** Asked for 501 bars at bar 500, the batch view answers 501 values and the live view only 500. */
  lemma LongWindowsDiffer()
    ensures var s := Counting(501);
      var live := LastOfHistory(LastN(DropNone(s[..501]), WINDOW_MAXLEN), 501);
      |live| == 500 && |WindowOf(s, 500, 501)| == 501
  {
    hide DropNone;
    var s := Counting(501);
    assert s[..501] == s && s[0..501] == s;
    DropNoneLength(s);
  }

  // ---- Whole views ----

  /** The live view's tables after feeding `bars[..i+1]`, column by column. */
  lemma ColumnParity(col: Col, bars: seq<Bar>, i: nat)
    requires i < |bars|
    ensures var s := Column(col.spec, col.c, bars);
      && LastValue(col, bars[..i+1]) == s[i]
      && WarmsUpAt(s, ValidFrom(col.spec, col.c))
  {
    hide ColumnsAt, DropNone, ValidFrom;
    var s := Column(col.spec, col.c, bars);
    ColumnPrefix(col.spec, col.c, bars, i + 1);
    assert Column(col.spec, col.c, bars[..i+1]) == s[..i+1];
    assert Column(col.spec, col.c, bars[..i+1])[i] == s[i];
    forall k | 0 <= k < |s| ensures s[k].Some? <==> k >= ValidFrom(col.spec, col.c) {
      ColumnValidIff(col.spec, col.c, bars, k);
    }
  }

  /** What both views know of a name, whatever names collide: the last column declared under it. */
  lemma NameAgrees(specs: Specs, bars: seq<Bar>, i: nat, name: string)
    requires AllStreamable(specs) && i < |bars|
    ensures AllComputable(specs)
    ensures var d, k := IndicatorSet(bars, specs), LastCol(FlatCols(specs), |FlatCols(specs)|, name);
      var latest := TablesAfter(FlatCols(specs), bars[..i+1]).latest;
      && UniqueKeys(d) && UniqueKeys(latest)
      && (k.None? ==> Lookup(d, name) == None && Lookup(latest, name) == None)
      && (k.Some? ==>
            var col := FlatCols(specs)[k.value];
            var s := Column(col.spec, col.c, bars);
            Lookup(d, name) == Some(s) && Lookup(latest, name) == Some(s[i]))
  {
    hide Column, ColumnsAt, TablesAfter, Lookup, UniqueKeys, FlatCols, LastCol, IndicatorSet, LastValue;
    var cols := FlatCols(specs);
    IndicatorSetIsSet(bars, specs);
    SetLookup(cols, |cols|, bars, name);
    TablesLookup(cols, bars[..i+1], name);
    var k := LastCol(cols, |cols|, name);
    if k.Some? { ColumnParity(cols[k.value], bars, i); }
  }

  /** At every bar both views answer every name's value alike, declared or not, colliding or not. */
  lemma ValuesAgree(view: LiveIndicatorView, bars: seq<Bar>, i: nat, name: string)
    requires view.Valid() && i < |bars| && view.fed == bars[..i+1]
    ensures AllComputable(view.specs)
    ensures var batch := BatchIndicatorView(IndicatorSet(bars, view.specs), i);
      batch.Bound() && view.Value(name) == batch.Value(name)
  {
    hide Column, IndicatorSet, IndAfter, FlatCols, LastCol, UniqueKeys, TablesAfter, IndexOf, HasKey;
    NameAgrees(view.specs, bars, i, name);
    SetLength(bars, view.specs);
  }

  /** What both views keep of a name's past. */
  lemma NameHistory(view: LiveIndicatorView, bars: seq<Bar>, i: nat, name: string)
    requires view.Valid() && i < |bars| && view.fed == bars[..i+1]
    ensures UniqueKeys(view.history)
    ensures var cols := FlatCols(view.specs);
      var k := LastCol(cols, |cols|, name);
      && (k.None? ==> Lookup(view.history, name) == None)
      && (k.Some? ==> Lookup(view.history, name) == Some(LastN(AllPushed(cols, bars[..i+1], name), WINDOW_MAXLEN)))
  {
    hide TablesAfter, Lookup, UniqueKeys, IndAfter, FlatCols, LastCol, LastN;
    var cols := FlatCols(view.specs);
    TablesLookup(cols, view.fed, name);
    if LastCol(cols, |cols|, name).Some? { TablesHistory(cols, view.fed, name); }
  }

  /** How many of the first `m` bars have a valid value. */
  function ValidBars(col: Col, m: nat): nat {
    var from := ValidFrom(col.spec, col.c);
    if m <= from then 0 else m - from
  }

  lemma {:induction false} ValidBarsCounted(s: Series, from: nat)
    requires WarmsUpAt(s, from)
    ensures |DropNone(s)| == if |s| <= from then 0 else |s| - from
  {
    if s != [] {
      var n := |s| - 1;
      assert WarmsUpAt(s[..n], from);
      ValidBarsCounted(s[..n], from);
    }
  }

  /** The live window of a name in terms of its columns, and the batch window next to it. */
  lemma WindowsOf(view: LiveIndicatorView, bars: seq<Bar>, i: nat, name: string, n: int) returns (own: seq<real>)
    requires view.Valid() && i < |bars| && view.fed == bars[..i+1]
    ensures AllComputable(view.specs)
    ensures var cols := FlatCols(view.specs);
      var batch := BatchIndicatorView(IndicatorSet(bars, view.specs), i);
      var k := LastCol(cols, |cols|, name);
      && batch.Bound()
      && (k.None? ==> view.Window(name, n) == Err(KeyError) && batch.Window(name, n) == Err(KeyError))
      && (k.Some? ==>
            var col := cols[k.value];
            var s, all := Column(col.spec, col.c, bars), AllPushed(cols, bars[..i+1], name);
            && view.Window(name, n) == Ok(LastOfHistory(LastN(all, WINDOW_MAXLEN), n))
            && batch.Window(name, n) == Ok(WindowOf(s, i, n))
            && WarmsUpAt(s, ValidFrom(col.spec, col.c)) && own == DropNone(s[..i+1]) && |own| == ValidBars(col, i + 1)
            && |own| <= |all|
            && (OthersSilent(cols, name, i + 1) ==> all == own)
            && (!OthersSilent(cols, name, i + 1) ==> |own| < |all|))
  {
    hide Column, IndicatorSet, IndAfter, FlatCols, LastCol, UniqueKeys, TablesAfter, LastN, LastOfHistory, WindowOf,
         DropNone, AllPushed, ValidFrom, OthersSilent, IndexOf, HasKey;
    NameAgrees(view.specs, bars, i, name);
    NameHistory(view, bars, i, name);
    SetLength(bars, view.specs);
    var cols := FlatCols(view.specs);
    var k := LastCol(cols, |cols|, name);
    own := [];
    if k.Some? {
      var col := cols[k.value];
      var s := Column(col.spec, col.c, bars);
      ColumnParity(col, bars, i);
      ColumnPrefix(col.spec, col.c, bars, i + 1);
      assert Column(col.spec, col.c, bars[..i+1]) == s[..i+1];
      HistoryIsOwnIff(cols, bars[..i+1], name);
      own := DropNone(s[..i+1]);
      assert WarmsUpAt(s[..i+1], ValidFrom(col.spec, col.c));
      ValidBarsCounted(s[..i+1], ValidFrom(col.spec, col.c));
    }
  }

  /**
   * Live/backtest view parity: after feeding the first i+1 bars, the live view answers a name's value, and
   * every window of 1 to 500 bars as long as no overwritten column of that name has warmed up, exactly as the
   * batch view bound to bar i of the whole series.
   */
  lemma ViewsAgree(view: LiveIndicatorView, bars: seq<Bar>, i: nat, name: string, n: nat)
    requires view.Valid() && i < |bars| && view.fed == bars[..i+1]
    requires 1 <= n <= WINDOW_MAXLEN && OthersSilent(FlatCols(view.specs), name, i + 1)
    ensures AllComputable(view.specs)
    ensures var batch := BatchIndicatorView(IndicatorSet(bars, view.specs), i);
      && batch.Bound()
      && view.Value(name) == batch.Value(name)
      && view.Window(name, n) == batch.Window(name, n)
  {
    hide Column, IndicatorSet, IndAfter, FlatCols, LastCol, TablesAfter, LastN, LastOfHistory, WindowOf, DropNone,
         AllPushed, ValidFrom, OthersSilent, IndexOf, HasKey;
    ValuesAgree(view, bars, i, name);
    ViewWindowsAgreeIff(view, bars, i, name, n);
  }

  /** The window of `n` bars is one the live history can answer like the batch series, `valid` bars in. */
  predicate Answerable(valid: nat, n: int) {
    if n <= 0 then valid <= -n || WINDOW_MAXLEN <= -n else n <= WINDOW_MAXLEN || valid <= WINDOW_MAXLEN
  }

  /**
   * Any number of bars, positive or not: the windows of a name whose other columns are silent agree exactly when
   * nothing was dropped that is asked for, or, for a non-positive number, when it covers the whole history.
   */
  lemma ViewWindowsAgreeIff(view: LiveIndicatorView, bars: seq<Bar>, i: nat, name: string, n: int)
    requires view.Valid() && i < |bars| && view.fed == bars[..i+1]
    requires OthersSilent(FlatCols(view.specs), name, i + 1)
    ensures AllComputable(view.specs)
    ensures var cols := FlatCols(view.specs);
      var batch := BatchIndicatorView(IndicatorSet(bars, view.specs), i);
      var k := LastCol(cols, |cols|, name);
      && batch.Bound()
      && (view.Window(name, n) == batch.Window(name, n)
          <==> k.None? || Answerable(ValidBars(cols[k.value], i + 1), n))
  {
    hide Column, IndicatorSet, IndAfter, FlatCols, LastCol, TablesAfter, LastOfHistory, WindowOf, DropNone,
         AllPushed, ValidFrom, OthersSilent, IndexOf, HasKey;
    var own := WindowsOf(view, bars, i, name, n);
    var cols := FlatCols(view.specs);
    var k := LastCol(cols, |cols|, name);
    if k.Some? {
      var col := cols[k.value];
      var s := Column(col.spec, col.c, bars);
      if n >= 1 {
        WindowParityIff(s, ValidFrom(col.spec, col.c), i, n);
      } else {
        NonPositiveWindowIff(s, i, LastN(own, WINDOW_MAXLEN), n);
      }
    }
  }

  /**
   * A window that reaches back before the first valid value tells the two views apart exactly when a column
   * that the name lost to a later one has warmed up: the live history still holds its values.
   */
  lemma SharedWindowsAgreeIff(view: LiveIndicatorView, bars: seq<Bar>, i: nat, name: string, n: nat)
    requires view.Valid() && i < |bars| && view.fed == bars[..i+1]
    requires var cols := FlatCols(view.specs);
      var k := LastCol(cols, |cols|, name);
      k.Some? && ValidBars(cols[k.value], i + 1) < n <= WINDOW_MAXLEN
    ensures AllComputable(view.specs)
    ensures var batch := BatchIndicatorView(IndicatorSet(bars, view.specs), i);
      && batch.Bound()
      && (view.Window(name, n) == batch.Window(name, n) <==> OthersSilent(FlatCols(view.specs), name, i + 1))
  {
    hide Column, IndicatorSet, IndAfter, FlatCols, LastCol, TablesAfter, LastOfHistory, WindowOf, DropNone,
         AllPushed, ValidFrom, OthersSilent, IndexOf, HasKey;
    var own := WindowsOf(view, bars, i, name, n);
    var cols := FlatCols(view.specs);
    var col := cols[LastCol(cols, |cols|, name).value];
    var s, all := Column(col.spec, col.c, bars), AllPushed(cols, bars[..i+1], name);
    WindowIsLastN(s, ValidFrom(col.spec, col.c), i, n);
    LastOfHistoryIsLastN(LastN(all, WINDOW_MAXLEN), n);
    assert WindowOf(s, i, n) == own;
  }

  /** The series of a batch set, looked up by its key, is some column and warms up once. */
  lemma EntryWarmsUp(specs: Specs, bars: seq<Bar>, i: nat, k: nat) returns (from: nat)
    requires AllStreamable(specs) && i < |bars|
    requires AllComputable(specs) && k < |IndicatorSet(bars, specs)|
    ensures var (name, s) := IndicatorSet(bars, specs)[k];
      && |s| == |bars| && WarmsUpAt(s, from)
      && Lookup(TablesAfter(FlatCols(specs), bars[..i+1]).latest, name) == Some(s[i])
  {
    hide Column, IndicatorSet, FlatCols, LastCol, UniqueKeys, TablesAfter, Lookup, ValidFrom, WarmsUpAt;
    var (name, s) := IndicatorSet(bars, specs)[k];
    NameAgrees(specs, bars, i, name);
    LookupAt(IndicatorSet(bars, specs), k);
    var cols := FlatCols(specs);
    var col := cols[LastCol(cols, |cols|, name).value];
    ColumnParity(col, bars, i);
    from := ValidFrom(col.spec, col.c);
  }

  lemma LatestIsKnown(specs: Specs, bars: seq<Bar>, i: nat, k: nat) returns (j: nat)
    requires AllStreamable(specs) && i < |bars|
    requires AllComputable(specs) && k < |TablesAfter(FlatCols(specs), bars[..i+1]).latest|
    ensures var d := IndicatorSet(bars, specs);
      && j < |d| && |d[j].1| == |bars|
      && TablesAfter(FlatCols(specs), bars[..i+1]).latest[k] == (d[j].0, d[j].1[i])
  {
    hide Column, IndicatorSet, FlatCols, LastCol, UniqueKeys, TablesAfter, IndexOf, HasKey;
    var d, latest := IndicatorSet(bars, specs), TablesAfter(FlatCols(specs), bars[..i+1]).latest;
    var name := latest[k].0;
    NameAgrees(specs, bars, i, name);
    SetLength(bars, specs);
    LookupAt(latest, k);
    j := IndexOf(d, name);
  }

  /** The live view is warm at a bar exactly when every batch series is valid there. */
  lemma WarmIsValid(specs: Specs, bars: seq<Bar>, i: nat)
    requires AllStreamable(specs) && i < |bars|
    ensures AllComputable(specs)
    ensures Warm(TablesAfter(FlatCols(specs), bars[..i+1]).latest) <==> AllValidAt(IndicatorSet(bars, specs), i)
  {
    hide IndicatorSet, FlatCols, TablesAfter, Lookup, WarmsUpAt;
    IndicatorSetIsSet(bars, specs);
    var d, latest := IndicatorSet(bars, specs), TablesAfter(FlatCols(specs), bars[..i+1]).latest;
    if Warm(latest) {
      forall k | 0 <= k < |d| ensures i < |d[k].1| && d[k].1[i].Some? {
        var from := EntryWarmsUp(specs, bars, i, k);
        KnownIsListed(latest, d[k].0);
      }
    }
    if AllValidAt(d, i) {
      forall k | 0 <= k < |latest| ensures latest[k].1.Some? {
        var j := LatestIsKnown(specs, bars, i, k);
      }
    }
  }

  /** Every series that warms up once stays valid, so all of them are valid exactly from the first such bar. */
  lemma ValidFromFirst(d: Dict<Series>, n: nat, i: nat, first: nat)
    requires i < n && AllLength(d, n) && IsFirstAllValid(d, first)
    requires forall k :: 0 <= k < |d| ==> StaysValid(d[k].1)
    ensures AllValidAt(d, i) <==> i >= first
  {
    if |d| > 0 && i >= first {
      assert AllValidAt(d, first);
      forall k | 0 <= k < |d| ensures i < |d[k].1| && d[k].1[i].Some? {
        assert StaysValid(d[k].1);
      }
    }
  }

  ghost predicate StaysValid(s: Series) {
    forall a, b :: 0 <= a <= b < |s| && s[a].Some? ==> s[b].Some?
  }

  /** The live view is warm exactly from the first bar at which every batch series is valid. */
  lemma WarmIff(specs: Specs, bars: seq<Bar>, i: nat, first: nat)
    requires AllStreamable(specs) && i < |bars|
    requires AllComputable(specs) && IsFirstAllValid(IndicatorSet(bars, specs), first)
    ensures Warm(TablesAfter(FlatCols(specs), bars[..i+1]).latest) <==> i >= first
  {
    hide IndicatorSet, FlatCols, TablesAfter, Lookup, IsFirstAllValid, AllValidAt;
    var d := IndicatorSet(bars, specs);
    WarmIsValid(specs, bars, i);
    SetLength(bars, specs);
    forall k | 0 <= k < |d| ensures StaysValid(d[k].1) {
      var from := EntryWarmsUp(specs, bars, i, k);
    }
    ValidFromFirst(d, |bars|, i, first);
  }

  lemma KnownIsListed<V>(d: Dict<V>, name: string)
    ensures Lookup(d, name).Some? ==> exists k :: 0 <= k < |d| && d[k].1 == Lookup(d, name).value
  {
  }

  // ---- Which name shows which column ----

  lemma SuffixesDiffer(name: string, a: string, b: string)
    requires a != b
    ensures name + a != name + b
  {
    assert (name + a)[|name|..] == a && (name + b)[|name|..] == b;
  }

  /** A view that declares one indicator of three columns under `name` answers each under its own suffix. */
  lemma ThreeNames(name: string, spec: Spec, bars: seq<Bar>, i: nat, a: string, b: string, c: string)
    requires Computable(spec) && i < |bars| && ExpandNames(name, spec) == [name + a, name + b, name + c]
    requires |ExpandNames("", spec)| == 3 && a != b && b != c && a != c
    ensures var d := IndicatorSet(bars, [(name, spec)]);
      var view := BatchIndicatorView(d, i);
      && AllComputable([(name, spec)]) && view.Bound()
      && view.Value(name + a) == Ok(ColumnsAt(spec, bars, i)[0])
      && view.Value(name + b) == Ok(ColumnsAt(spec, bars, i)[1])
      && view.Value(name + c) == Ok(ColumnsAt(spec, bars, i)[2])
  {
    hide ColumnsAt, ExpandNames, IndicatorSet, Lookup, UniqueKeys, Column;
    SuffixesDiffer(name, a, b);
    SuffixesDiffer(name, b, c);
    SuffixesDiffer(name, a, c);
    SetLength(bars, [(name, spec)]);
    var d := ThreeColumns(name, spec, bars, name + a, name + b, name + c);
    ValueOfLookup(d, i, name + a);
    ValueOfLookup(d, i, name + b);
    ValueOfLookup(d, i, name + c);
    assert Column(spec, 0, bars)[i] == ColumnsAt(spec, bars, i)[0] by { ColumnIs(spec, 0, bars, i); }
    assert Column(spec, 1, bars)[i] == ColumnsAt(spec, bars, i)[1] by { ColumnIs(spec, 1, bars, i); }
    assert Column(spec, 2, bars)[i] == ColumnsAt(spec, bars, i)[2] by { ColumnIs(spec, 2, bars, i); }
  }

  lemma ColumnIs(spec: Spec, c: nat, bars: seq<Bar>, i: nat)
    requires Computable(spec) && c < |ExpandNames("", spec)| && i < |bars|
    ensures Column(spec, c, bars)[i] == ColumnsAt(spec, bars, i)[c]
  {
    hide ColumnsAt, ExpandNames;
  }

  lemma ValueOfLookup(d: Dict<Series>, i: nat, name: string)
    requires BatchIndicatorView(d, i).Bound() && Lookup(d, name).Some?
    ensures i < |Lookup(d, name).value| && BatchIndicatorView(d, i).Value(name) == Ok(Lookup(d, name).value[i])
  {
  }

  lemma ThreeColumns(name: string, spec: Spec, bars: seq<Bar>, a: string, b: string, c: string)
    returns (d: Dict<Series>)
    requires Computable(spec) && ExpandNames(name, spec) == [a, b, c] && |ExpandNames("", spec)| == 3
    requires a != b && b != c && a != c
    ensures AllComputable([(name, spec)]) && d == IndicatorSet(bars, [(name, spec)])
    ensures Lookup(d, a) == Some(Column(spec, 0, bars)) && Lookup(d, b) == Some(Column(spec, 1, bars))
    ensures Lookup(d, c) == Some(Column(spec, 2, bars))
  {
    hide ExpandNames, Lookup, UniqueKeys, Column, Put;
    var none: Dict<Series> := [];
    NothingToLookUp(a);
    var d1 := PutColumns(none, name, spec, bars, 1);
    var d2 := PutColumns(none, name, spec, bars, 2);
    d := PutColumns(none, name, spec, bars, 3);
    assert PutColumns(none, name, spec, bars, 0) == none;
    assert d1 == Put(none, a, Column(spec, 0, bars));
    assert d2 == Put(d1, b, Column(spec, 1, bars));
    assert d == Put(d2, c, Column(spec, 2, bars));
    PutLookup(none, a, Column(spec, 0, bars), a);
    PutLookup(d1, b, Column(spec, 1, bars), a);
    PutLookup(d1, b, Column(spec, 1, bars), b);
    PutLookup(d2, c, Column(spec, 2, bars), a);
    PutLookup(d2, c, Column(spec, 2, bars), b);
    PutLookup(d2, c, Column(spec, 2, bars), c);
    OneSpec(name, spec, bars);
  }

  lemma OneSpec(name: string, spec: Spec, bars: seq<Bar>)
    requires Computable(spec)
    ensures AllComputable([(name, spec)])
    ensures IndicatorSet(bars, [(name, spec)]) == PutColumns([], name, spec, bars, |ExpandNames("", spec)|)
  {
    hide PutColumns, ExpandNames;
    var specs := [(name, spec)];
    assert specs[..0] == [];
  }

  lemma MacdColumns(name: string, fast: int, slow: int, signal: int, bars: seq<Bar>, i: nat)
    requires 1 <= fast < slow && signal >= 1 && i < |bars|
    ensures ExpandNames(name, MACD(fast, slow, signal)) == [name + ".macd", name + ".signal", name + ".hist"]
    ensures |ExpandNames("", MACD(fast, slow, signal))| == 3 && Computable(MACD(fast, slow, signal))
    ensures var v := Closes(bars);
      var (line, sig) := (MacdLineAt(v, fast, slow, i), MacdSignalAt(v, fast, slow, signal, i));
      ColumnsAt(MACD(fast, slow, signal), bars, i)
        == [line, sig, if line.Some? && sig.Some? then Some(line.value - sig.value) else None]
  {
    hide MacdLineAt, MacdSignalAt, Closes;
  }

  lemma BollingerColumns(name: string, period: int, numStd: real, sqrt: real -> real, bars: seq<Bar>, i: nat)
    requires period >= 2 && i < |bars|
    ensures var spec := BOLLINGER(period, numStd, sqrt);
      && ExpandNames(name, spec) == [name + ".middle", name + ".upper", name + ".lower"]
      && |ExpandNames("", spec)| == 3 && Computable(spec)
      && var bands := BollingerAt(Closes(bars), period, numStd, sqrt, i);
         ColumnsAt(spec, bars, i)
           == (if bands.Some? then [Some(bands.value.0), Some(bands.value.1), Some(bands.value.2)]
               else [None, None, None])
  {
    hide BollingerAt, Closes;
  }

  /** The three names of a MACD show its line, its signal and their difference. */
  lemma MacdNames(name: string, fast: int, slow: int, signal: int, bars: seq<Bar>, i: nat)
    requires 1 <= fast < slow && signal >= 1 && i < |bars|
    ensures var specs := [(name, MACD(fast, slow, signal))];
      && AllComputable(specs)
      && var view := BatchIndicatorView(IndicatorSet(bars, specs), i);
         && view.Bound()
         && var v := Closes(bars);
            var (line, sig) := (MacdLineAt(v, fast, slow, i), MacdSignalAt(v, fast, slow, signal, i));
            && view.Value(name + ".macd") == Ok(line) && view.Value(name + ".signal") == Ok(sig)
            && view.Value(name + ".hist")
                 == Ok(if line.Some? && sig.Some? then Some(line.value - sig.value) else None)
  {
    hide ColumnsAt, ExpandNames, MacdLineAt, MacdSignalAt, IndicatorSet, Closes, IndexOf, HasKey;
    MacdColumns(name, fast, slow, signal, bars, i);
    ThreeNames(name, MACD(fast, slow, signal), bars, i, ".macd", ".signal", ".hist");
  }

  /** The three names of the Bollinger bands show the middle, the upper and the lower one. */
  lemma BollingerNames(name: string, period: int, numStd: real, sqrt: real -> real, bars: seq<Bar>, i: nat)
    requires period >= 2 && i < |bars|
    ensures var specs := [(name, BOLLINGER(period, numStd, sqrt))];
      && AllComputable(specs)
      && var view := BatchIndicatorView(IndicatorSet(bars, specs), i);
         && view.Bound()
         && var bands := BollingerAt(Closes(bars), period, numStd, sqrt, i);
            && view.Value(name + ".middle") == Ok(if bands.Some? then Some(bands.value.0) else None)
            && view.Value(name + ".upper") == Ok(if bands.Some? then Some(bands.value.1) else None)
            && view.Value(name + ".lower") == Ok(if bands.Some? then Some(bands.value.2) else None)
  {
    hide ColumnsAt, ExpandNames, BollingerAt, IndicatorSet, Closes, IndexOf, HasKey;
    BollingerColumns(name, period, numStd, sqrt, bars, i);
    ThreeNames(name, BOLLINGER(period, numStd, sqrt), bars, i, ".middle", ".upper", ".lower");
  }

  /** The two names of a Supertrend show its line and its direction. */
  lemma SupertrendNames(name: string, period: int, multiplier: real, bars: seq<Bar>, i: nat)
    requires period >= 1 && i < |bars|
    ensures var specs := [(name, SUPERTREND(period, multiplier))];
      && AllComputable(specs)
      && var view := BatchIndicatorView(IndicatorSet(bars, specs), i);
         && view.Bound()
         && var (line, direction) := SupertrendAt(bars, period, multiplier, i);
            && view.Value(name + ".supertrend") == Ok(line)
            && view.Value(name + ".direction") == Ok(Some(direction as real))
  {
    hide ColumnsAt, ExpandNames, SupertrendAt, IndicatorSet, Lookup, UniqueKeys, Column, Put, IndexOf, HasKey;
    var spec, none := SUPERTREND(period, multiplier), [];
    var a, b := name + ".supertrend", name + ".direction";
    SupertrendColumns(name, period, multiplier, bars, i);
    SuffixesDiffer(name, ".supertrend", ".direction");
    OneSpec(name, spec, bars);
    SetLength(bars, [(name, spec)]);
    NothingToLookUp(a);
    var d1, d := PutColumns(none, name, spec, bars, 1), PutColumns(none, name, spec, bars, 2);
    assert PutColumns(none, name, spec, bars, 0) == none;
    assert d1 == Put(none, a, Column(spec, 0, bars)) && d == Put(d1, b, Column(spec, 1, bars));
    PutLookup(none, a, Column(spec, 0, bars), a);
    PutLookup(d1, b, Column(spec, 1, bars), a);
    PutLookup(d1, b, Column(spec, 1, bars), b);
    ValueOfLookup(d, i, a);
    ValueOfLookup(d, i, b);
    ColumnIs(spec, 0, bars, i);
    ColumnIs(spec, 1, bars, i);
  }

  lemma SupertrendColumns(name: string, period: int, multiplier: real, bars: seq<Bar>, i: nat)
    requires period >= 1 && i < |bars|
    ensures var spec := SUPERTREND(period, multiplier);
      && ExpandNames(name, spec) == [name + ".supertrend", name + ".direction"] && |ExpandNames("", spec)| == 2
      && Computable(spec)
      && var (line, direction) := SupertrendAt(bars, period, multiplier, i);
         ColumnsAt(spec, bars, i) == [line, Some(direction as real)]
  {
    hide SupertrendAt;
  }

  /** A single-column indicator answers under its plain name, from the prices or bars it is made for. */
  lemma PlainNames(name: string, period: int, bars: seq<Bar>, i: nat)
    requires period >= 1 && i < |bars|
    ensures OneColumn(name, SMA(period), bars, i, SmaAt(Closes(bars), period, i))
    ensures OneColumn(name, EMA(period), bars, i, EmaAt(Closes(bars), period, i))
    ensures OneColumn(name, RSI(period), bars, i, RsiAt(Closes(bars), period, i))
    ensures OneColumn(name, ATR(period), bars, i, AtrAt(bars, period, i))
    ensures OneColumn(name, TRUE_RANGE, bars, i, Some(TrueRangeAt(bars, i)))
    ensures OneColumn(name, VWAP, bars, i, VwapAt(bars, i))
    ensures OneColumn(name, OBV, bars, i, Some(ObvAt(bars, i) as real))
  {
    hide SmaAt, EmaAt, RsiAt, AtrAt, TrueRangeAt, VwapAt, ObvAt, Closes, OneColumn;
    OneName(name, SMA(period), bars, i);
    OneName(name, EMA(period), bars, i);
    OneName(name, RSI(period), bars, i);
    OneName(name, ATR(period), bars, i);
    OneName(name, TRUE_RANGE, bars, i);
    OneName(name, VWAP, bars, i);
    OneName(name, OBV, bars, i);
  }

  ghost predicate OneColumn(name: string, spec: Spec, bars: seq<Bar>, i: nat, v: Option<real>) {
    && AllComputable([(name, spec)])
    && var view := BatchIndicatorView(IndicatorSet(bars, [(name, spec)]), i);
       view.Bound() && view.Value(name) == Ok(v)
  }

  lemma OneName(name: string, spec: Spec, bars: seq<Bar>, i: nat)
    requires Computable(spec) && i < |bars| && ExpandNames(name, spec) == [name] && |ExpandNames("", spec)| == 1
    ensures OneColumn(name, spec, bars, i, ColumnsAt(spec, bars, i)[0])
  {
    hide ColumnsAt, ExpandNames, IndicatorSet, Lookup, UniqueKeys, Column, Put;
    var none: Dict<Series> := [];
    OneSpec(name, spec, bars);
    SetLength(bars, [(name, spec)]);
    NothingToLookUp(name);
    PutLookup(none, name, Column(spec, 0, bars), name);
    ValueOfLookup(PutColumns(none, name, spec, bars, 1), i, name);
    ColumnIs(spec, 0, bars, i);
  }

  // ---- Colliding names ----

  const COLLIDING: Specs := [("a.macd", SMA(1)), ("a", MACD(1, 2, 1))]

  function CollidingCols(): seq<Col> {
    [Col("a.macd", SMA(1), 0), Col("a.macd", MACD(1, 2, 1), 0), Col("a.signal", MACD(1, 2, 1), 1),
     Col("a.hist", MACD(1, 2, 1), 2)]
  }

  lemma CollidingFlat()
    ensures FlatCols(COLLIDING) == CollidingCols()
  {
    var one := COLLIDING[..1];
    assert one[..0] == [] && FlatCols(one) == ColsOf("a.macd", SMA(1));
    assert "a" + ".macd" == "a.macd" && "a" + ".signal" == "a.signal" && "a" + ".hist" == "a.hist";
    assert ColsOf("a", MACD(1, 2, 1)) == CollidingCols()[1..];
  }

  lemma MeanOfOne(v: seq<real>)
    requires |v| == 1
    ensures Mean(v) == Sum(v)
  {
    hide Sum;
    assert |v| as real == 1.0;
    assert Sum(v) / 1.0 == Sum(v);
  }

  /** On the first bar the moving average is valid and the MACD, which needs two bars, is not. */
  lemma FirstBarValues(bar: Bar)
    ensures LastValue(CollidingCols()[0], [bar]) == Some(bar.close)
    ensures forall k :: 1 <= k < 4 ==> LastValue(CollidingCols()[k], [bar]) == None
  {
    hide MacdSignalAt;
    assert Closes([bar]) == [bar.close] && [bar.close][0..1] == [bar.close];
    assert [bar.close][..0] == [];
    var v := [bar.close];
    assert v[..0] == [] && Sum(v) == bar.close;
    MeanOfOne(v);
    forall k | 1 <= k < 4 ensures LastValue(CollidingCols()[k], [bar]) == None {
      ColumnValidIff(MACD(1, 2, 1), CollidingCols()[k].c, [bar], 0);
    }
  }

  /** The history of the shared name after one bar: the moving average's value. */
  lemma CollidingHistory(bar: Bar)
    ensures Lookup(TablesAfter(CollidingCols(), [bar]).history, "a.macd") == Some([bar.close])
  {
    hide Stored, Lookup, UniqueKeys, LastValue, Put;
    var cols, bars := CollidingCols(), [bar];
    var blank := Blank(cols, 4);
    FirstBarValues(bar);
    BlankLookup(cols, 4, "a.macd");
    assert StoredCols(blank, cols, 0, bars) == blank;
    var s1 := StoredCols(blank, cols, 1, bars);
    assert s1 == Stored(blank, "a.macd", LastValue(cols[0], bars));
    StoredLookup(blank, "a.macd", LastValue(cols[0], bars), "a.macd");
    var s2 := StoredCols(blank, cols, 2, bars);
    assert s2 == Stored(s1, "a.macd", None);
    StoredLookup(s1, "a.macd", None, "a.macd");
    var s3 := StoredCols(blank, cols, 3, bars);
    assert s3 == Stored(s2, "a.signal", None);
    StoredLookup(s2, "a.signal", None, "a.macd");
    assert StoredCols(blank, cols, 4, bars) == Stored(s3, "a.hist", None);
    StoredLookup(s3, "a.hist", None, "a.macd");
    assert bars[..0] == [] && TablesAfter(cols, []) == blank;
    assert Push([], bar.close, WINDOW_MAXLEN) == [bar.close];
  }

  /**
   * When a declared name is also one that another indicator expands to, the live history collects the values of
   * both while the batch set keeps the last: one bar in, the live window has a value and the batch window none.
   */
  lemma CollidingWindowsDiffer(view: LiveIndicatorView, bar: Bar)
    requires view.Valid() && view.specs == COLLIDING && view.fed == [bar]
    ensures AllComputable(COLLIDING)
    ensures var batch := BatchIndicatorView(IndicatorSet([bar], COLLIDING), 0);
      && batch.Bound()
      && view.Window("a.macd", 1) == Ok([bar.close]) && batch.Window("a.macd", 1) == Ok([])
  {
    hide TablesAfter, IndAfter, IndicatorSet, UniqueKeys, ColumnsAt, FlatCols, IndexOf, HasKey;
    CollidingFlat();
    CollidingHistory(bar);
    FirstBarValues(bar);
    assert [bar][..1] == [bar];
    NameAgrees(view.specs, [bar], 0, "a.macd");
    SetLength([bar], COLLIDING);
    var s := Column(MACD(1, 2, 1), 0, [bar]);
    assert LastCol(CollidingCols(), 4, "a.macd") == Some(1);
    var first := s[0..1];
    assert first == [None] && first[..0] == [] && DropNone(first) == [];
  }
}
