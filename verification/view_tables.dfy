/** The live view's two dictionaries as a function of what was fed, and what they show. */
module ViewTables {
  import opened Wrappers
  import opened IndicatorsBatch
  import opened IndicatorsStreaming
  import opened IndicatorViews
  import opened ViewColumns

  datatype Tables = Tables(latest: Dict<Option<real>>, history: Dict<seq<real>>)

  /** Overwrite the latest value of a key; a valid one also extends the key's bounded history. */
  function Stored(t: Tables, key: string, v: Option<real>): Tables {
    Tables(
      Put(t.latest, key, v),
      if v.None? || !HasKey(t.history, key) then t.history
      else Put(t.history, key, Push(t.history[IndexOf(t.history, key)].1, v.value, WINDOW_MAXLEN)))
  }

  /** A column's value at the last bar. */
  function LastValue(col: Col, bars: seq<Bar>): Option<real>
    requires bars != []
  {
    ColumnsAt(col.spec, bars, |bars| - 1)[col.c]
  }

  /** The tables after storing the first `n` columns of the last bar, one after the other. */
  ghost function StoredCols(t: Tables, cols: seq<Col>, n: nat, bars: seq<Bar>): Tables
    requires n <= |cols| && bars != []
  {
    if n == 0 then t else Stored(StoredCols(t, cols, n - 1, bars), cols[n-1].key, LastValue(cols[n-1], bars))
  }

  /** The tables of a new view: the first `n` columns known, nothing seen. */
  ghost function Blank(cols: seq<Col>, n: nat): Tables
    requires n <= |cols|
  {
    if n == 0 then Tables([], [])
    else
      var t := Blank(cols, n - 1);
      Tables(Put(t.latest, cols[n-1].key, None), Put(t.history, cols[n-1].key, []))
  }

  ghost function TablesAfter(cols: seq<Col>, bars: seq<Bar>): Tables {
    if bars == [] then Blank(cols, |cols|)
    else StoredCols(TablesAfter(cols, bars[..|bars|-1]), cols, |cols|, bars)
  }

  /** Every key has had a valid value. */
  predicate Warm(latest: Dict<Option<real>>) { forall k :: 0 <= k < |latest| ==> latest[k].1.Some? }

  // ---- Looking up by key ----

  ghost predicate UniqueKeys<V>(d: Dict<V>) { forall i, j :: 0 <= i < j < |d| ==> d[i].0 != d[j].0 }

  function Lookup<V>(d: Dict<V>, key: string): Option<V> {
    if HasKey(d, key) then Some(d[IndexOf(d, key)].1) else None
  }

  lemma LookupAt<V>(d: Dict<V>, k: nat)
    requires UniqueKeys(d) && k < |d|
    ensures Lookup(d, d[k].0) == Some(d[k].1)
  {
    IndexOfAt(d, k);
  }

  lemma PutLookup<V>(d: Dict<V>, key: string, v: V, name: string)
    requires UniqueKeys(d)
    ensures UniqueKeys(Put(d, key, v))
    ensures Lookup(Put(d, key, v), name) == if name == key then Some(v) else Lookup(d, name)
  {
    hide IndexOf;
    var d' := Put(d, key, v);
    if name == key {
      var k := if HasKey(d, key) then IndexOf(d, key) else |d|;
      LookupAt(d', k);
    } else if HasKey(d, name) {
      var k := IndexOf(d, name);
      assert d'[k] == d[k];
      LookupAt(d', k);
      LookupAt(d, k);
    }
  }

  /** The last of the first `n` columns with this key is the one a dictionary keeps. */
  function LastCol(cols: seq<Col>, n: nat, name: string): (k: Option<nat>)
    requires n <= |cols|
    ensures k.Some? ==> k.value < n && cols[k.value].key == name
    ensures k.None? ==> forall j :: 0 <= j < n ==> cols[j].key != name
  {
    if n == 0 then None else if cols[n-1].key == name then Some(n - 1) else LastCol(cols, n - 1, name)
  }

  lemma {:induction false} BlankLookup(cols: seq<Col>, n: nat, name: string)
    requires n <= |cols|
    ensures var t := Blank(cols, n);
      && UniqueKeys(t.latest) && UniqueKeys(t.history)
      && Lookup(t.latest, name) == (if LastCol(cols, n, name).Some? then Some(None) else None)
      && Lookup(t.history, name) == (if LastCol(cols, n, name).Some? then Some([]) else None)
  {
    hide Put, Lookup, UniqueKeys;
    if n == 0 {
      NothingToLookUp(name);
    } else {
      BlankLookup(cols, n - 1, name);
      var t := Blank(cols, n - 1);
      PutLookup(t.latest, cols[n-1].key, None, name);
      PutLookup(t.history, cols[n-1].key, [], name);
    }
  }

  lemma NothingToLookUp(name: string)
    ensures UniqueKeys<Option<real>>([]) && UniqueKeys<seq<real>>([]) && UniqueKeys<Series>([])
    ensures Lookup<Option<real>>([], name) == None && Lookup<seq<real>>([], name) == None
    ensures Lookup<Series>([], name) == None
  {
  }

  lemma StoredLookup(t: Tables, key: string, v: Option<real>, name: string)
    requires UniqueKeys(t.latest) && UniqueKeys(t.history)
    ensures var t' := Stored(t, key, v);
      && UniqueKeys(t'.latest) && UniqueKeys(t'.history)
      && Lookup(t'.latest, name) == (if name == key then Some(v) else Lookup(t.latest, name))
      && Lookup(t'.history, name)
           == (if name != key || v.None? || Lookup(t.history, key).None? then Lookup(t.history, name)
               else Some(Push(Lookup(t.history, key).value, v.value, WINDOW_MAXLEN)))
  {
    hide Put, UniqueKeys, IndexOf, Push;
    PutLookup(t.latest, key, v, name);
    if v.Some? && HasKey(t.history, key) {
      PutLookup(t.history, key, Push(t.history[IndexOf(t.history, key)].1, v.value, WINDOW_MAXLEN), name);
    }
  }

  lemma {:induction false} StoredColsLookup(t: Tables, cols: seq<Col>, n: nat, bars: seq<Bar>, name: string)
    requires n <= |cols| && bars != [] && UniqueKeys(t.latest) && UniqueKeys(t.history)
    ensures var t', k := StoredCols(t, cols, n, bars), LastCol(cols, n, name);
      && UniqueKeys(t'.latest) && UniqueKeys(t'.history)
      && Lookup(t'.latest, name) == (if k.Some? then Some(LastValue(cols[k.value], bars)) else Lookup(t.latest, name))
      && (Lookup(t'.history, name).Some? <==> Lookup(t.history, name).Some?)
  {
    hide Stored, Lookup, UniqueKeys, LastValue;
    if n > 0 {
      StoredColsLookup(t, cols, n - 1, bars, name);
      StoredLookup(StoredCols(t, cols, n - 1, bars), cols[n-1].key, LastValue(cols[n-1], bars), name);
    }
  }

  /** Whatever keys collide: a known name's latest value is that of the last column with the name. */
  lemma {:induction false} TablesLookup(cols: seq<Col>, bars: seq<Bar>, name: string)
    ensures var t, k := TablesAfter(cols, bars), LastCol(cols, |cols|, name);
      && UniqueKeys(t.latest) && UniqueKeys(t.history)
      && (Lookup(t.history, name).Some? <==> k.Some?)
      && Lookup(t.latest, name)
           == (if k.None? then None else if bars == [] then Some(None) else Some(LastValue(cols[k.value], bars)))
    decreases |bars|
  {
    hide Lookup, UniqueKeys, LastValue, StoredCols, Blank, LastCol;
    BlankLookup(cols, |cols|, name);
    if bars != [] {
      TablesLookup(cols, bars[..|bars|-1], name);
      StoredColsLookup(TablesAfter(cols, bars[..|bars|-1]), cols, |cols|, bars, name);
    }
  }

  /** Every column's key has a history to extend. */
  lemma HistoryKnown(cols: seq<Col>, bars: seq<Bar>, n: nat, k: nat)
    requires bars != [] && n <= |cols| && k < |cols|
    ensures HasKey(StoredCols(TablesAfter(cols, bars[..|bars|-1]), cols, n, bars).history, cols[k].key)
  {
    hide StoredCols, TablesAfter, UniqueKeys, HasKey;
    TablesLookup(cols, bars[..|bars|-1], cols[k].key);
    StoredColsLookup(TablesAfter(cols, bars[..|bars|-1]), cols, n, bars, cols[k].key);
  }

  // ---- The batch set, looked up ----

  /** The precomputed set is built column by column too. */
  ghost function SetUpTo(cols: seq<Col>, n: nat, bars: seq<Bar>): Dict<Series>
    requires n <= |cols|
  {
    if n == 0 then [] else Put(SetUpTo(cols, n - 1, bars), cols[n-1].key, Column(cols[n-1].spec, cols[n-1].c, bars))
  }

  lemma {:induction false} SetPrefix(a: seq<Col>, b: seq<Col>, n: nat, bars: seq<Bar>)
    requires n <= |a|
    ensures SetUpTo(a + b, n, bars) == SetUpTo(a, n, bars)
  {
    hide Column, Put;
    if n > 0 { SetPrefix(a, b, n - 1, bars); }
  }

  lemma {:induction false} PutColumnsIsSet(cols: seq<Col>, name: string, spec: Spec, bars: seq<Bar>, n: nat)
    requires Streamable(spec) && n <= |ExpandNames("", spec)|
    ensures PutColumns(SetUpTo(cols, |cols|, bars), name, spec, bars, n)
         == SetUpTo(cols + ColsOf(name, spec), |cols| + n, bars)
  {
    hide Column, Put, ExpandNames;
    var add := ColsOf(name, spec);
    if n == 0 {
      SetPrefix(cols, add, |cols|, bars);
    } else {
      PutColumnsIsSet(cols, name, spec, bars, n - 1);
      assert (cols + add)[|cols| + n - 1] == add[n-1];
    }
  }

  lemma {:induction false} IndicatorSetIsSet(bars: seq<Bar>, specs: Specs)
    requires AllStreamable(specs)
    ensures AllComputable(specs)
    ensures IndicatorSet(bars, specs) == SetUpTo(FlatCols(specs), |FlatCols(specs)|, bars)
    decreases |specs|
  {
    hide Column, Put, ExpandNames, ColsOf, PutColumns;
    if specs != [] {
      var rest := specs[..|specs|-1];
      var (name, spec) := specs[|specs|-1];
      IndicatorSetIsSet(bars, rest);
      PutColumnsIsSet(FlatCols(rest), name, spec, bars, |ExpandNames("", spec)|);
    }
  }

  lemma {:induction false} SetLookup(cols: seq<Col>, n: nat, bars: seq<Bar>, name: string)
    requires n <= |cols|
    ensures var d, k := SetUpTo(cols, n, bars), LastCol(cols, n, name);
      && UniqueKeys(d)
      && Lookup(d, name) == (if k.Some? then Some(Column(cols[k.value].spec, cols[k.value].c, bars)) else None)
  {
    hide Column, Put, Lookup, UniqueKeys;
    if n == 0 {
      NothingToLookUp(name);
    } else {
      SetLookup(cols, n - 1, bars, name);
      PutLookup(SetUpTo(cols, n - 1, bars), cols[n-1].key, Column(cols[n-1].spec, cols[n-1].c, bars), name);
    }
  }

  // ---- All three dictionaries list the same keys in the same order ----

  ghost predicate SameKeys<V, W>(a: Dict<V>, b: Dict<W>) {
    |a| == |b| && forall k :: 0 <= k < |a| ==> a[k].0 == b[k].0
  }

  lemma PutSameKeys<V, W>(a: Dict<V>, b: Dict<W>, key: string, x: V, y: W)
    requires SameKeys(a, b)
    ensures SameKeys(Put(a, key, x), Put(b, key, y))
  {
    hide IndexOf;
    SameIndex(a, b, key);
  }

  lemma PutKnownKey<V>(d: Dict<V>, key: string, v: V)
    requires HasKey(d, key)
    ensures SameKeys(Put(d, key, v), d)
  {
    hide IndexOf;
  }

  lemma {:induction false} BlankKeys(cols: seq<Col>, n: nat, series: seq<Bar>)
    requires n <= |cols|
    ensures var t, d := Blank(cols, n), SetUpTo(cols, n, series); SameKeys(t.latest, d) && SameKeys(t.history, d)
  {
    hide Put, Column, SameKeys;
    if n == 0 {
      NoKeys();
    } else {
      BlankKeys(cols, n - 1, series);
      var t, d, col := Blank(cols, n - 1), SetUpTo(cols, n - 1, series), cols[n-1];
      PutSameKeys(t.latest, d, col.key, None, Column(col.spec, col.c, series));
      PutSameKeys(t.history, d, col.key, [], Column(col.spec, col.c, series));
    }
  }

  lemma NoKeys()
    ensures SameKeys<Option<real>, Series>([], []) && SameKeys<seq<real>, Series>([], [])
  {
  }

  lemma {:induction false} StoredColsKeys(t: Tables, cols: seq<Col>, n: nat, bars: seq<Bar>)
    requires n <= |cols| && bars != []
    requires forall k :: 0 <= k < |cols| ==> HasKey(t.latest, cols[k].key)
    ensures var t' := StoredCols(t, cols, n, bars); SameKeys(t'.latest, t.latest) && SameKeys(t'.history, t.history)
  {
    hide Put, LastValue, IndexOf, Push;
    if n > 0 {
      StoredColsKeys(t, cols, n - 1, bars);
      var p, key, v := StoredCols(t, cols, n - 1, bars), cols[n-1].key, LastValue(cols[n-1], bars);
      SameIndex(p.latest, t.latest, key);
      PutKnownKey(p.latest, key, v);
      if HasKey(p.history, key) && v.Some? {
        PutKnownKey(p.history, key, Push(p.history[IndexOf(p.history, key)].1, v.value, WINDOW_MAXLEN));
      }
    }
  }

  /** The keys are those of the batch set over any series. */
  lemma {:induction false} TablesKeys(cols: seq<Col>, bars: seq<Bar>, series: seq<Bar>)
    ensures var t, d := TablesAfter(cols, bars), SetUpTo(cols, |cols|, series);
      SameKeys(t.latest, d) && SameKeys(t.history, d)
    decreases |bars|
  {
    hide Blank, StoredCols, Lookup, UniqueKeys, SetUpTo;
    if bars == [] {
      BlankKeys(cols, |cols|, series);
    } else {
      var before := bars[..|bars|-1];
      TablesKeys(cols, before, series);
      forall k | 0 <= k < |cols| ensures HasKey(TablesAfter(cols, before).latest, cols[k].key) {
        TablesLookup(cols, before, cols[k].key);
        KnownKey(TablesAfter(cols, before).latest, cols[k].key);
      }
      StoredColsKeys(TablesAfter(cols, before), cols, |cols|, bars);
    }
  }

  lemma KnownKey<V>(d: Dict<V>, name: string)
    ensures Lookup(d, name).Some? <==> HasKey(d, name)
  {
  }

  // ---- Histories, looked up ----

  function Valid(v: Option<real>): seq<real> { if v.Some? then [v.value] else [] }

  /** What the last bar adds to a name's history: the valid values of the first `n` columns under it, in order. */
  ghost function Pushed(cols: seq<Col>, n: nat, bars: seq<Bar>, name: string): seq<real>
    requires n <= |cols| && bars != []
  {
    if n == 0 then []
    else
      var rest := Pushed(cols, n - 1, bars, name);
      if cols[n-1].key == name then rest + Valid(LastValue(cols[n-1], bars)) else rest
  }

  ghost function AllPushed(cols: seq<Col>, bars: seq<Bar>, name: string): seq<real> {
    if bars == [] then [] else AllPushed(cols, bars[..|bars|-1], name) + Pushed(cols, |cols|, bars, name)
  }

  /** One more value of the name's columns, or none, joins the bounded history. */
  lemma StoredHistory(t: Tables, key: string, v: Option<real>, name: string, h: seq<real>)
    requires UniqueKeys(t.latest) && UniqueKeys(t.history)
    requires Lookup(t.history, name) == Some(LastN(h, WINDOW_MAXLEN))
    ensures Lookup(Stored(t, key, v).history, name)
         == Some(LastN(if key == name then h + Valid(v) else h, WINDOW_MAXLEN))
  {
    hide Stored, Lookup, UniqueKeys, LastN, Push;
    StoredLookup(t, key, v, name);
    if v.Some? { PushIsLastN(h, v.value, WINDOW_MAXLEN); } else { assert h + Valid(v) == h; }
  }

  lemma {:induction false} StoredColsHistory(t: Tables, cols: seq<Col>, n: nat, bars: seq<Bar>, name: string,
                                             h: seq<real>)
    requires n <= |cols| && bars != [] && UniqueKeys(t.latest) && UniqueKeys(t.history)
    requires Lookup(t.history, name) == Some(LastN(h, WINDOW_MAXLEN))
    ensures Lookup(StoredCols(t, cols, n, bars).history, name)
         == Some(LastN(h + Pushed(cols, n, bars, name), WINDOW_MAXLEN))
  {
    hide Stored, Lookup, UniqueKeys, LastValue, LastN, Valid;
    if n == 0 {
      assert h + [] == h;
    } else {
      StoredColsHistory(t, cols, n - 1, bars, name, h);
      StoredColsLookup(t, cols, n - 1, bars, name);
      var rest, v := Pushed(cols, n - 1, bars, name), LastValue(cols[n-1], bars);
      StoredHistory(StoredCols(t, cols, n - 1, bars), cols[n-1].key, v, name, h + rest);
      assert (h + rest) + Valid(v) == h + (rest + Valid(v));
    }
  }

  /** Whatever keys collide: a name's history is the bounded tail of all valid values its columns ever gave. */
  lemma {:induction false} TablesHistory(cols: seq<Col>, bars: seq<Bar>, name: string)
    requires LastCol(cols, |cols|, name).Some?
    ensures Lookup(TablesAfter(cols, bars).history, name) == Some(LastN(AllPushed(cols, bars, name), WINDOW_MAXLEN))
    decreases |bars|
  {
    hide Lookup, UniqueKeys, StoredCols, Blank, LastCol, Pushed;
    if bars == [] {
      BlankLookup(cols, |cols|, name);
    } else {
      var before := bars[..|bars|-1];
      TablesHistory(cols, before, name);
      TablesLookup(cols, before, name);
      StoredColsHistory(TablesAfter(cols, before), cols, |cols|, bars, name, AllPushed(cols, before, name));
    }
  }

  // ---- Whose values a history holds ----

  /** Under this name no column but the last has warmed up within the first `m` bars. */
  ghost predicate OthersSilent(cols: seq<Col>, name: string, m: nat) {
    forall j: nat :: j < |cols| && cols[j].key == name && LastCol(cols, |cols|, name) != Some(j) ==>
      m <= ValidFrom(cols[j].spec, cols[j].c)
  }

  /** A name with one column has no others. */
  lemma OneColumnIsAlone(cols: seq<Col>, k: nat, m: nat)
    requires k < |cols| && forall j :: 0 <= j < |cols| && j != k ==> cols[j].key != cols[k].key
    ensures OthersSilent(cols, cols[k].key, m)
  {
    hide ValidFrom;
  }

  lemma ValueAtLast(col: Col, bars: seq<Bar>)
    requires bars != []
    ensures LastValue(col, bars).Some? <==> |bars| > ValidFrom(col.spec, col.c)
  {
    hide ColumnsAt, ValidFrom;
    ColumnValidIff(col.spec, col.c, bars, |bars| - 1);
  }

  /** A bar adds the last column's value, and more exactly when another column of the name has warmed up. */
  lemma {:induction false} PushedByLast(cols: seq<Col>, n: nat, bars: seq<Bar>, name: string)
    requires n <= |cols| && bars != [] && LastCol(cols, |cols|, name).Some?
    ensures var k := LastCol(cols, |cols|, name).value;
      var own := if k < n then Valid(LastValue(cols[k], bars)) else [];
      && |own| <= |Pushed(cols, n, bars, name)|
      && (Pushed(cols, n, bars, name) == own || |own| < |Pushed(cols, n, bars, name)|)
      && (Pushed(cols, n, bars, name) == own <==>
            forall j: nat :: j < n && cols[j].key == name && j != k ==> |bars| <= ValidFrom(cols[j].spec, cols[j].c))
  {
    hide LastValue, ValidFrom, LastCol;
    var k := LastCol(cols, |cols|, name).value;
    if n > 0 {
      PushedByLast(cols, n - 1, bars, name);
      ValueAtLast(cols[n-1], bars);
      if k == n - 1 { NoneAfterLast(cols, |cols|, name); }
    }
  }

  lemma {:induction false} NoneAfterLast(cols: seq<Col>, n: nat, name: string)
    requires n <= |cols| && LastCol(cols, n, name).Some?
    ensures var k := LastCol(cols, n, name).value; k < n && cols[k].key == name
    ensures forall j :: LastCol(cols, n, name).value < j < n ==> cols[j].key != name
  {
    if cols[n-1].key != name { NoneAfterLast(cols, n - 1, name); }
  }

  /** The history is the last column's own exactly while the others are silent, and longer afterwards. */
  lemma {:induction false} HistoryIsOwnIff(cols: seq<Col>, bars: seq<Bar>, name: string)
    requires LastCol(cols, |cols|, name).Some?
    ensures var col := cols[LastCol(cols, |cols|, name).value];
      var own := DropNone(Column(col.spec, col.c, bars));
      && |own| <= |AllPushed(cols, bars, name)|
      && (OthersSilent(cols, name, |bars|) ==> AllPushed(cols, bars, name) == own)
      && (!OthersSilent(cols, name, |bars|) ==> |own| < |AllPushed(cols, bars, name)|)
    decreases |bars|
  {
    hide LastCol, Pushed, Column, LastValue, ValidFrom, DropNone;
    var col := cols[LastCol(cols, |cols|, name).value];
    if bars == [] {
      NothingValid(col);
    } else {
      var before := bars[..|bars|-1];
      HistoryIsOwnIff(cols, before, name);
      PushedByLast(cols, |cols|, bars, name);
      OwnAppend(col, before, bars[|bars|-1]);
      assert bars == before + [bars[|bars|-1]];
    }
  }

  lemma NothingValid(col: Col)
    ensures DropNone(Column(col.spec, col.c, [])) == []
  {
  }

  lemma ColumnAppend(col: Col, bars: seq<Bar>, bar: Bar)
    ensures Column(col.spec, col.c, bars + [bar]) == Column(col.spec, col.c, bars) + [LastValue(col, bars + [bar])]
  {
    hide ColumnsAt;
    forall i | 0 <= i < |bars|
      ensures ColumnsAt(col.spec, bars + [bar], i) == ColumnsAt(col.spec, bars, i)
    {
      assert (bars + [bar])[..i+1] == bars[..i+1];
      ColumnsAreCausal(col.spec, bars + [bar], bars, i);
    }
  }

  lemma OwnAppend(col: Col, bars: seq<Bar>, bar: Bar)
    ensures DropNone(Column(col.spec, col.c, bars + [bar]))
         == DropNone(Column(col.spec, col.c, bars)) + Valid(LastValue(col, bars + [bar]))
  {
    hide Column, LastValue;
    ColumnAppend(col, bars, bar);
    var s, v := Column(col.spec, col.c, bars), LastValue(col, bars + [bar]);
    assert (s + [v])[..|s|] == s;
  }
}
