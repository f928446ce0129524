/**
 * The incremental state objects. `fed` is what has been fed so far; every update answers with the
 * batch indicator's value at the bar just fed. A constructor raises ValueError on an illegal period,
 * so an object only exists for a legal one.
 */
module IndicatorStates {
  import opened Wrappers
  import opened Costs
  import opened IndicatorsBatch
  import opened IndicatorsStreaming

  class SMAState {
    const period: nat
    var buf: seq<real>
    ghost var fed: seq<real>

    ghost predicate Valid()
      reads this
    {
      period >= 1 && buf == LastN(fed, period)
    }

    constructor (period: nat)
      requires period >= 1
      ensures Valid() && fed == [] && this.period == period
    {
      this.period, buf, fed := period, [], [];
    }

    method Update(value: real) returns (r: Option<real>)
      requires Valid()
      modifies this
      ensures Valid() && fed == old(fed) + [value]
      ensures r == SmaAt(fed, period, |fed| - 1)
    {
      SmaRefines(period, fed, value);
      buf := if |buf| < period then buf + [value] else buf[1..] + [value];
      fed := fed + [value];
      if |buf| < period { return None; }
      r := Some(Mean(buf));
    }
  }

  class EMAState {
    const period: nat
    var seedBuf: seq<real>
    var value: Option<real>
    ghost var fed: seq<real>

    ghost predicate Valid()
      reads this
    {
      period >= 1 && EmaSt(seedBuf, value) == EmaAfter(period, fed)
    }

    constructor (period: nat)
      requires period >= 1
      ensures Valid() && fed == [] && this.period == period
    {
      this.period, seedBuf, value, fed := period, [], None, [];
    }

    method Update(x: real) returns (r: Option<real>)
      requires Valid()
      modifies this
      ensures Valid() && fed == old(fed) + [x]
      ensures r == EmaAt(fed, period, |fed| - 1)
    {
      EmaRefines(period, fed, x);
      fed := fed + [x];
      if value.None? {
        seedBuf := seedBuf + [x];
        if |seedBuf| < period { return None; }
        value := Some(Mean(seedBuf));
      } else {
        value := Some(EmaStep(period, value.value, x));
      }
      r := value;
    }
  }

  class RSIState {
    const period: nat
    var prevClose: Option<real>
    var seedGains: seq<real>
    var seedLosses: seq<real>
    var avgGain: Option<real>
    var avgLoss: Option<real>
    ghost var fed: seq<real>

    ghost predicate Valid()
      reads this
    {
      period >= 1 && RsiSt(prevClose, seedGains, seedLosses, avgGain, avgLoss) == RsiAfter(period, fed)
    }

    constructor (period: nat)
      requires period >= 1
      ensures Valid() && fed == [] && this.period == period
    {
      this.period, prevClose, seedGains, seedLosses, avgGain, avgLoss, fed := period, None, [], [], None, None, [];
    }

    method Update(close: real) returns (r: Option<real>)
      requires Valid()
      modifies this
      ensures Valid() && fed == old(fed) + [close]
      ensures r == RsiAt(fed, period, |fed| - 1)
    {
      hide Mean, WilderStep, RsiValue, RsiAfter, RsiAt;
      RsiAfterOk(period, fed);
      RsiRefines(period, fed, close);
      fed := fed + [close];
      if prevClose.None? {
        prevClose := Some(close);
        return None;
      }
      var delta := close - prevClose.value;
      prevClose := Some(close);
      var gain, loss := Max(delta, 0.0), Max(-delta, 0.0);
      if avgGain.None? || avgLoss.None? {
        seedGains := seedGains + [gain];
        seedLosses := seedLosses + [loss];
        if |seedGains| < period { return None; }
        MeanNonNegative(seedGains);
        MeanNonNegative(seedLosses);
        avgGain := Some(Mean(seedGains));
        avgLoss := Some(Mean(seedLosses));
      } else {
        WilderNonNegative(period, avgGain.value, gain);
        WilderNonNegative(period, avgLoss.value, loss);
        avgGain := Some(WilderStep(period, avgGain.value, gain));
        avgLoss := Some(WilderStep(period, avgLoss.value, loss));
      }
      r := Some(RsiValue(avgGain.value, avgLoss.value));
    }
  }

  class ATRState {
    const period: nat
    var prevClose: Option<real>
    var seedTrs: seq<real>
    var value: Option<real>
    ghost var fed: seq<Bar>

    ghost predicate Valid()
      reads this
    {
      period >= 1 && AtrSt(prevClose, seedTrs, value) == AtrAfter(period, fed)
    }

    constructor (period: nat)
      requires period >= 1
      ensures Valid() && fed == [] && this.period == period
    {
      this.period, prevClose, seedTrs, value, fed := period, None, [], None, [];
    }

    method Update(high: real, low: real, close: real, ghost bar: Bar) returns (r: Option<real>)
      requires Valid() && bar.high == high && bar.low == low && bar.close == close
      modifies this
      ensures Valid() && fed == old(fed) + [bar]
      ensures r == AtrAt(fed, period, |fed| - 1)
    {
      hide Mean, WilderStep, TrueRange, AtrAfter, AtrAt;
      AtrRefines(period, fed, bar);
      fed := fed + [bar];
      var tr := if prevClose.None? then high - low else TrueRange(high, low, prevClose.value);
      prevClose := Some(close);
      if value.None? {
        seedTrs := seedTrs + [tr];
        if |seedTrs| < period { return None; }
        value := Some(Mean(seedTrs));
      } else {
        value := Some(WilderStep(period, value.value, tr));
      }
      r := value;
    }
  }

  class MACDState {
    const fast: EMAState
    const slow: EMAState
    const signal: EMAState
    ghost var fed: seq<real>

    ghost predicate Valid()
      reads this, fast, slow, signal
    {
      && fast != slow && slow != signal && fast != signal
      && fast.Valid() && slow.Valid() && signal.Valid()
      && fast.period < slow.period
      && fast.fed == fed && slow.fed == fed
      && signal.fed == DropNone(MacdLine(fed, fast.period, slow.period))
    }

    constructor (fastPeriod: nat, slowPeriod: nat, signalPeriod: nat)
      requires 1 <= fastPeriod < slowPeriod && signalPeriod >= 1
      ensures Valid() && fed == [] && fresh(fast) && fresh(slow) && fresh(signal)
      ensures fast.period == fastPeriod && slow.period == slowPeriod && signal.period == signalPeriod
    {
      fast := new EMAState(fastPeriod);
      slow := new EMAState(slowPeriod);
      signal := new EMAState(signalPeriod);
      fed := [];
    }

    method Update(close: real) returns (r: Option<MacdValue>)
      requires Valid()
      modifies this, fast, slow, signal
      ensures Valid() && fed == old(fed) + [close]
      ensures var i := |fed| - 1;
        var line := MacdLineAt(fed, fast.period, slow.period, i);
        var sig := MacdSignalAt(fed, fast.period, slow.period, signal.period, i);
        if line.None? then r == None && sig == None
        else r == Some(MacdValue(line.value, sig, Minus(line, sig)))
    {
      hide EmaAt, EmaUpdate, EmaAfter;
      ghost var before := fed;
      MacdRefines(fast.period, slow.period, signal.period, fed, close);
      MacdLineAppend(fed, close, fast.period, slow.period);
      fed := fed + [close];
      var fastValue := fast.Update(close);
      var slowValue := slow.Update(close);
      if fastValue.None? || slowValue.None? { return None; }
      var macd := fastValue.value - slowValue.value;
      var signalValue := signal.Update(macd);
      DropNoneLast(MacdLine(fed, fast.period, slow.period));
      var hist := if signalValue.None? then None else Some(macd - signalValue.value);
      r := Some(MacdValue(macd, signalValue, hist));
    }
  }

  lemma MacdLineAppend(v: seq<real>, x: real, fast: nat, slow: nat)
    requires 1 <= fast < slow
    ensures MacdLine(v + [x], fast, slow) == MacdLine(v, fast, slow) + [MacdLineAt(v + [x], fast, slow, |v|)]
  {
    assert (v + [x])[..|v|] == v[..|v|];
    MacdLineIsCausal(v, v + [x], fast, slow, |v|);
    assert MacdLine(v + [x], fast, slow)[..|v|] == MacdLine(v, fast, slow)[..|v|] == MacdLine(v, fast, slow);
  }

  lemma DropNoneLast(s: Series)
    requires s != []
    ensures DropNone(s) == DropNone(s[..|s|-1]) + (if s[|s|-1].Some? then [s[|s|-1].value] else [])
  {
  }

  class BollingerState {
    const period: nat
    const numStd: real
    const sqrt: real -> real
    var buf: seq<real>
    ghost var fed: seq<real>

    ghost predicate Valid()
      reads this
    {
      period >= 2 && buf == LastN(fed, period)
    }

    constructor (period: nat, numStd: real, sqrt: real -> real)
      requires period >= 2
      ensures Valid() && fed == [] && this.period == period && this.numStd == numStd && this.sqrt == sqrt
    {
      this.period, this.numStd, this.sqrt, buf, fed := period, numStd, sqrt, [], [];
    }

    method Update(close: real) returns (r: Option<(real, real, real)>)
      requires Valid()
      modifies this
      ensures Valid() && fed == old(fed) + [close]
      ensures r == BollingerAt(fed, period, numStd, sqrt, |fed| - 1)
    {
      hide Bands, BollingerAt;
      BollingerRefines(period, numStd, sqrt, fed, close);
      buf := if |buf| < period then buf + [close] else buf[1..] + [close];
      fed := fed + [close];
      if |buf| < period { return None; }
      r := Some(Bands(buf, numStd, sqrt));
    }
  }
}
