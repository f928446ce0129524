/** The live view: one streaming state per declared indicator, fed one bar at a time. */
module LiveViews {
  import opened Wrappers
  import opened IndicatorsBatch
  import opened IndicatorsStreaming
  import opened IndicatorViews
  import opened IndicatorObjects
  import opened ViewColumns
  import opened ViewTables

  /** `list(history)[-n:]` when n is below the length, the whole history otherwise. */
  function LastOfHistory(h: seq<real>, n: int): seq<real> {
    if n >= |h| then h
    else if n > 0 then h[|h|-n..]
    else if -n <= |h| then h[-n..] else []
  }

  lemma {:induction false} FlatColsPrefix(specs: Specs, n: nat)
    requires AllStreamable(specs) && n <= |specs|
    ensures FlatCols(specs[..n]) <= FlatCols(specs)
    decreases |specs| - n
  {
    hide ColsOf;
    if n == |specs| {
      assert specs[..n] == specs;
    } else {
      FlatColsPrefix(specs, n + 1);
      assert specs[..n+1][..n] == specs[..n];
    }
  }

  /** Where the columns of the k-th declared indicator sit among all columns. */
  lemma FlatColsStep(specs: Specs, k: nat)
    requires AllStreamable(specs) && k < |specs|
    ensures var from, n := |FlatCols(specs[..k])|, |ExpandNames("", specs[k].1)|;
      && from + n <= |FlatCols(specs)| && |FlatCols(specs[..k+1])| == from + n
      && FlatCols(specs)[from..from + n] == ColsOf(specs[k].0, specs[k].1)
  {
    hide ColsOf, ExpandNames;
    FlatColsPrefix(specs, k + 1);
    assert specs[..k+1][..k] == specs[..k];
    var from, cols := |FlatCols(specs[..k])|, FlatCols(specs[..k+1]);
    assert cols[from..] == ColsOf(specs[k].0, specs[k].1);
    assert FlatCols(specs)[..|cols|] == cols;
    assert FlatCols(specs)[from..|cols|] == cols[from..];
  }

  lemma FlatColsEnds(specs: Specs)
    requires AllStreamable(specs)
    ensures FlatCols(specs[..0]) == [] && FlatCols(specs[..|specs|]) == FlatCols(specs)
  {
    assert specs[..|specs|] == specs;
  }

  /** The objects of all indicators, none of them shared. */
  ghost predicate Owned(states: seq<IndObject>, repr: set<object>) {
    && (forall k :: 0 <= k < |states| ==> Footprint(states[k]) <= repr)
    && (forall j, k :: 0 <= j < k < |states| ==> Footprint(states[j]) !! Footprint(states[k]))
  }

  class LiveIndicatorView {
    const specs: Specs
    const states: seq<IndObject>
    var latest: Dict<Option<real>>
    var history: Dict<seq<real>>
    ghost var fed: seq<Bar>
    ghost const repr: set<object>

    ghost predicate Valid()
      reads this, repr
    {
      && this !in repr && Owned(states, repr)
      && AllStreamable(specs) && |states| == |specs|
      && (forall k :: 0 <= k < |specs| ==> Fits(specs[k].1, states[k], fed))
      && Tables(latest, history) == TablesAfter(FlatCols(specs), fed)
    }

    /** Build one state object per declared indicator; an unknown kind or an illegal period raises. */
    static method Create(specs: Specs) returns (r: Result<LiveIndicatorView>)
      ensures r.Ok? <==> AllStreamable(specs)
      ensures r.Ok? ==>
        && fresh(r.value) && fresh(r.value.repr) && r.value.Valid() && r.value.fed == [] && r.value.specs == specs
      ensures r.Err? ==> r.error in {UnknownIndicatorKind, ValueError}
    {
      hide Fits, ColsOf, ExpandNames, Blank, LegalParams;
      var states: seq<IndObject> := [];
      ghost var repr: set<object> := {};
      for k := 0 to |specs|
        invariant AllStreamable(specs[..k]) && |states| == k && fresh(repr) && Owned(states, repr)
        invariant forall j :: 0 <= j < k ==> Fits(specs[j].1, states[j], [])
      {
        assert specs[..k+1][..k] == specs[..k];
        var spec := specs[k].1;
        if spec.UNKNOWN? || BatchOnly(spec) { return Err(UnknownIndicatorKind); }
        if !LegalParams(spec) { return Err(ValueError); }
        var x := NewObject(spec);
        states, repr := states + [x], repr + Footprint(x);
      }
      assert specs[..|specs|] == specs;
      var latest, history := BlankTables(specs);
      var view := new LiveIndicatorView.Init(specs, states, latest, history, repr);
      r := Ok(view);
    }

    constructor Init(specs: Specs, states: seq<IndObject>, latest: Dict<Option<real>>, history: Dict<seq<real>>,
                     ghost repr: set<object>)
      requires AllStreamable(specs) && |states| == |specs| && Owned(states, repr)
      requires forall k :: 0 <= k < |specs| ==> Fits(specs[k].1, states[k], [])
      requires Tables(latest, history) == Blank(FlatCols(specs), |FlatCols(specs)|)
      ensures Valid() && fed == [] && this.specs == specs && this.repr == repr
    {
      this.specs, this.states, this.latest, this.history, fed := specs, states, latest, history, [];
      this.repr := repr;
    }

    /** Of a bar the view is only given these three numbers. */
    method Update(high: real, low: real, close: real, ghost bar: Bar)
      requires Valid() && bar.high == high && bar.low == low && bar.close == close
      modifies this, repr
      ensures Valid() && fed == old(fed) + [bar]
    {
      hide Fits, ColumnsAt, ExpandNames, FlatCols, ColsOf, StoredCols, Streamable, TablesAfter, Footprint;
      FlatColsEnds(specs);
      ghost var before := fed;
      ghost var cols := FlatCols(specs);
      ghost var t := TablesAfter(cols, before);
      fed := fed + [bar];
      StoredNothing(t, cols, fed);
      for k := 0 to |specs|
        invariant AllStreamable(specs[..k]) && |FlatCols(specs[..k])| <= |cols|
        invariant forall j :: 0 <= j < k ==> Fits(specs[j].1, states[j], fed)
        invariant forall j :: k <= j < |specs| ==> Fits(specs[j].1, states[j], before)
        invariant fed == before + [bar]
        invariant Tables(latest, history) == StoredCols(t, cols, |FlatCols(specs[..k])|, fed)
      {
        assert specs[..k+1][..k] == specs[..k];
        var (name, spec) := specs[k];
        FlatColsStep(specs, k);
        var result := FeedObject(spec, states[k], high, low, close, bar, before);
        latest, history := Record(cols, |FlatCols(specs[..k])|, name, spec, result, latest, history, before, bar);
      }
      TablesNext(cols, before, bar);
    }

    function AllWarm(): bool
      reads this
    {
      Warm(latest)
    }

    function Value(name: string): Result<Option<real>>
      reads this
    {
      if !HasKey(latest, name) then Err(KeyError) else Ok(latest[IndexOf(latest, name)].1)
    }

    function Window(name: string, n: int): Result<seq<real>>
      reads this
    {
      if !HasKey(history, name) then Err(KeyError) else Ok(LastOfHistory(history[IndexOf(history, name)].1, n))
    }
  }

  lemma TablesNext(cols: seq<Col>, bars: seq<Bar>, bar: Bar)
    ensures TablesAfter(cols, bars + [bar]) == StoredCols(TablesAfter(cols, bars), cols, |cols|, bars + [bar])
  {
    assert (bars + [bar])[..|bars|] == bars;
  }

  lemma StoredNothing(t: Tables, cols: seq<Col>, bars: seq<Bar>)
    requires bars != []
    ensures StoredCols(t, cols, 0, bars) == t
  {
  }

  lemma StoredNext(t: Tables, cols: seq<Col>, n: nat, bars: seq<Bar>)
    requires n < |cols| && bars != []
    ensures StoredCols(t, cols, n + 1, bars)
         == Stored(StoredCols(t, cols, n, bars), cols[n].key, LastValue(cols[n], bars))
  {
    hide Stored, LastValue;
  }

  /** Every key of every declared indicator, with nothing seen yet. */
  method BlankTables(specs: Specs) returns (latest: Dict<Option<real>>, history: Dict<seq<real>>)
    requires AllStreamable(specs)
    ensures Tables(latest, history) == Blank(FlatCols(specs), |FlatCols(specs)|)
  {
    hide ExpandNames, FlatCols, ColsOf, Put, Streamable;
    latest, history := [], [];
    ghost var cols := FlatCols(specs);
    FlatColsEnds(specs);
    for k := 0 to |specs|
      invariant AllStreamable(specs[..k]) && |FlatCols(specs[..k])| <= |cols|
      invariant Tables(latest, history) == Blank(cols, |FlatCols(specs[..k])|)
    {
      FlatColsStep(specs, k);
      ghost var from := |FlatCols(specs[..k])|;
      var (name, spec) := specs[k];
      var keys := ExpandNames(name, spec);
      SameKeyCount(name, spec);
      for c := 0 to |keys|
        invariant from + c <= |cols| && Tables(latest, history) == Blank(cols, from + c)
      {
        KeyOfColumn(cols, from, name, spec, c);
        latest := Put(latest, keys[c], None);
        history := Put(history, keys[c], []);
      }
    }
  }

  lemma SameKeyCount(name: string, spec: Spec)
    ensures |ExpandNames(name, spec)| == |ExpandNames("", spec)|
  {
  }

  lemma KeyOfColumn(cols: seq<Col>, from: nat, name: string, spec: Spec, c: nat)
    requires Streamable(spec) && c < |ExpandNames("", spec)| && from + |ExpandNames("", spec)| <= |cols|
    requires cols[from..from + |ExpandNames("", spec)|] == ColsOf(name, spec)
    ensures c < |ExpandNames(name, spec)| && cols[from + c] == Col(ExpandNames(name, spec)[c], spec, c)
  {
    hide ExpandNames;
    SameKeyCount(name, spec);
    assert cols[from + c] == ColsOf(name, spec)[c];
  }

  /** Store one indicator's columns: overwrite the latest value, extend the bounded history by valid values. */
  method Record(ghost cols: seq<Col>, ghost from: nat, name: string, spec: Spec, result: seq<Option<real>>,
                latest0: Dict<Option<real>>, history0: Dict<seq<real>>, ghost before: seq<Bar>, ghost bar: Bar)
    returns (latest: Dict<Option<real>>, history: Dict<seq<real>>)
    requires Streamable(spec) && from + |ExpandNames("", spec)| <= |cols|
    requires cols[from..from + |ExpandNames("", spec)|] == ColsOf(name, spec)
    requires result == ColumnsAt(spec, before + [bar], |before|)
    requires Tables(latest0, history0) == StoredCols(TablesAfter(cols, before), cols, from, before + [bar])
    ensures Tables(latest, history)
         == StoredCols(TablesAfter(cols, before), cols, from + |ExpandNames("", spec)|, before + [bar])
  {
    hide ColumnsAt, TablesAfter, StoredCols, Push, Put, ExpandNames, IndexOf, HasKey, ColsOf;
    latest, history := latest0, history0;
    ghost var t := TablesAfter(cols, before);
    SameKeyCount(name, spec);
    var keys := ExpandNames(name, spec);
    for c := 0 to |keys|
      invariant from + c <= |cols| && Tables(latest, history) == StoredCols(t, cols, from + c, before + [bar])
    {
      KeyOfColumn(cols, from, name, spec, c);
      assert (before + [bar])[..|before|] == before;
      HistoryKnown(cols, before + [bar], from + c, from + c);
      StoredNext(t, cols, from + c, before + [bar]);
      latest := Put(latest, keys[c], result[c]);
      if result[c].Some? {
        history := Put(history, keys[c], Push(history[IndexOf(history, keys[c])].1, result[c].value, WINDOW_MAXLEN));
      }
    }
  }
}
