/** The shared fill economics: adverse slippage and the Indian equity cost stack. */
module Costs {
  import opened Wrappers

  datatype Side = BUY | SELL

  datatype Segment = DELIVERY | INTRADAY

  datatype CostRates = CostRates(
    brokeragePct: real,
    brokerageMax: real,
    sttDeliveryPct: real,
    sttIntradaySellPct: real,
    exchangeTxnPct: real,
    sebiPct: real,
    stampDutyBuyDeliveryPct: real,
    stampDutyBuyIntradayPct: real,
    gstPct: real)

  /** Every rate is validated to be non-negative when the configuration is loaded. */
  ghost predicate NonNegativeRates(r: CostRates) {
    && r.brokeragePct >= 0.0 && r.brokerageMax >= 0.0
    && r.sttDeliveryPct >= 0.0 && r.sttIntradaySellPct >= 0.0
    && r.exchangeTxnPct >= 0.0 && r.sebiPct >= 0.0
    && r.stampDutyBuyDeliveryPct >= 0.0 && r.stampDutyBuyIntradayPct >= 0.0
    && r.gstPct >= 0.0
  }

  type Rates = r: CostRates | NonNegativeRates(r)
    witness CostRates(0.0, 0.0, 0.0, 0.0, 0.0, 0.0, 0.0, 0.0, 0.0)

  datatype TradeCosts = TradeCosts(
    brokerage: real,
    stt: real,
    stampDuty: real,
    exchangeCharges: real,
    sebiCharges: real,
    gst: real,
    total: real,
    netAmount: real)

  function Min(a: real, b: real): real { if b < a then b else a }

  function Max(a: real, b: real): real { if b > a then b else a }

  function Abs(a: int): nat { if a < 0 then -a else a }

  /** `qty` shares at `price` each. */
  function Worth(price: real, qty: int): real { price * qty as real }

  function ApplySlippage(price: real, side: Side, slippageBps: real): real {
    var factor := slippageBps / 10000.0;
    if side == BUY then price * (1.0 + factor) else price * (1.0 - factor)
  }

  /** A rate on turnover, capped per executed order. */
  function Brokerage(turnover: real, rates: Rates): real { Min(turnover * rates.brokeragePct, rates.brokerageMax) }

  function CostsOnTurnover(side: Side, turnover: real, segment: Segment, rates: Rates): TradeCosts {
    var brokerage := Brokerage(turnover, rates);
    var stt :=
      if segment == DELIVERY then turnover * rates.sttDeliveryPct
      else if side == SELL then turnover * rates.sttIntradaySellPct else 0.0;
    var stampDuty :=
      if side != BUY then 0.0
      else if segment == DELIVERY then turnover * rates.stampDutyBuyDeliveryPct
      else turnover * rates.stampDutyBuyIntradayPct;
    var exchangeCharges := turnover * rates.exchangeTxnPct;
    var sebiCharges := turnover * rates.sebiPct;
    var gst := (brokerage + exchangeCharges + sebiCharges) * rates.gstPct;
    var total := brokerage + stt + stampDuty + exchangeCharges + sebiCharges + gst;
    var netAmount := if side == SELL then turnover - total else turnover + total;
    TradeCosts(brokerage, stt, stampDuty, exchangeCharges, sebiCharges, gst, total, netAmount)
  }

  /** Costs of one executed leg; a non-positive price or quantity raises ValueError. */
  function CalculateCosts(side: Side, price: real, qty: int, segment: Segment, rates: Rates): Result<TradeCosts> {
    if price <= 0.0 || qty <= 0 then Err(ValueError)
    else Ok(CostsOnTurnover(side, Worth(price, qty), segment, rates))
  }

  function NetAmount(side: Side, price: real, qty: int, segment: Segment, rates: Rates): real
    requires price > 0.0 && qty > 0
  {
    CalculateCosts(side, price, qty, segment, rates).value.netAmount
  }

  // ---- Arithmetic the solver needs spelled out ----

  lemma MulMono(x: real, y: real, r: real)
    requires x <= y && r >= 0.0
    ensures x * r <= y * r
  {
  }

  lemma MulNonNegative(x: real, y: real)
    requires x >= 0.0 && y >= 0.0
    ensures x * y >= 0.0
  {
  }

  lemma Distribute(x: real, y: real, r: real)
    ensures (x + y) * r == x * r + y * r
    ensures r * (x + y) == r * x + r * y
  {
  }

  lemma MulStrict(x: real, y: real, r: real)
    requires x < y && r > 0.0
    ensures x * r < y * r
  {
  }

  lemma ProductIncreases(p1: real, q1: real, p2: real, q2: real, t1: real, t2: real)
    requires 0.0 < p1 <= p2 && 0.0 < q1 <= q2 && (p1 < p2 || q1 < q2)
    requires t1 == p1 * q1 && t2 == p2 * q2
    ensures t1 < t2
  {
    if p1 < p2 {
      var more := Gained(p1, p2, q1);
      var further := NotLost(q1, q2, p2);
      assert t2 - t1 == more + further;
    } else {
      var more := Gained(q1, q2, p2);
      assert t2 - t1 == more;
    }
  }

  /** How much a product grows with its first factor. */
  lemma Gained(x: real, y: real, r: real) returns (d: real)
    requires x < y && r > 0.0
    ensures d == y * r - x * r && d > 0.0
  {
    MulStrict(x, y, r);
    d := y * r - x * r;
  }

  lemma NotLost(x: real, y: real, r: real) returns (d: real)
    requires x <= y && r >= 0.0
    ensures d == y * r - x * r && d >= 0.0
  {
    MulMono(x, y, r);
    d := y * r - x * r;
  }

  // ---- The buy-side net amount as a function of turnover ----

  /** The capped charge that carries brokerage and the GST on it. */
  ghost function CappedCharge(turnover: real, rates: Rates): real {
    Brokerage(turnover, rates) * (1.0 + rates.gstPct)
  }

  /** The sum of the rates that are charged on turnover without a cap. */
  ghost function UncappedRate(side: Side, segment: Segment, rates: Rates): real {
    SttRate(side, segment, rates) + StampRate(side, segment, rates)
    + (rates.exchangeTxnPct + rates.sebiPct) * (1.0 + rates.gstPct)
  }

  ghost function SttRate(side: Side, segment: Segment, rates: Rates): real {
    if segment == DELIVERY then rates.sttDeliveryPct
    else if side == SELL then rates.sttIntradaySellPct else 0.0
  }

  ghost function StampRate(side: Side, segment: Segment, rates: Rates): real {
    if side != BUY then 0.0
    else if segment == DELIVERY then rates.stampDutyBuyDeliveryPct
    else rates.stampDutyBuyIntradayPct
  }

  lemma SplitArithmetic(t: real, s: real, d: real, e: real, b: real, g: real, br: real)
    ensures br + t * s + t * d + t * e + t * b + (br + t * e + t * b) * g
         == t * (s + d + (e + b) * (1.0 + g)) + br * (1.0 + g)
  {
  }

  /** The cost total splits into a linear part and one capped part. */
  lemma TotalSplits(side: Side, turnover: real, segment: Segment, rates: Rates)
    ensures CostsOnTurnover(side, turnover, segment, rates).total
         == turnover * UncappedRate(side, segment, rates) + CappedCharge(turnover, rates)
    ensures CostsOnTurnover(side, turnover, segment, rates).netAmount
         == (if side == SELL then turnover - CostsOnTurnover(side, turnover, segment, rates).total
             else turnover + CostsOnTurnover(side, turnover, segment, rates).total)
  {
    hide Brokerage;
    var c := CostsOnTurnover(side, turnover, segment, rates);
    var stt, stamp := SttRate(side, segment, rates), StampRate(side, segment, rates);
    assert c.stt == turnover * stt && c.stampDuty == turnover * stamp;
    assert CappedCharge(turnover, rates) == c.brokerage * (1.0 + rates.gstPct);
    SplitArithmetic(turnover, stt, stamp, rates.exchangeTxnPct, rates.sebiPct, rates.gstPct, c.brokerage);
  }

  lemma CappedChargeMonotone(t1: real, t2: real, rates: Rates)
    requires 0.0 <= t1 <= t2
    ensures 0.0 <= CappedCharge(t1, rates) <= CappedCharge(t2, rates)
  {
    MulMono(t1, t2, rates.brokeragePct);
    MulMono(0.0, t1, rates.brokeragePct);
    var m1 := Min(t1 * rates.brokeragePct, rates.brokerageMax);
    var m2 := Min(t2 * rates.brokeragePct, rates.brokerageMax);
    MulMono(m1, m2, 1.0 + rates.gstPct);
    MulMono(0.0, m1, 1.0 + rates.gstPct);
  }

  lemma CappedChargeSubadditive(t1: real, t2: real, rates: Rates)
    requires 0.0 <= t1 && 0.0 <= t2
    ensures CappedCharge(t1 + t2, rates) <= CappedCharge(t1, rates) + CappedCharge(t2, rates)
  {
    hide Min, CappedCharge;
    var a := UncappedBrokerage(t1, rates);
    var b := UncappedBrokerage(t2, rates);
    var both := UncappedBrokerage(t1 + t2, rates);
    Distribute(t1, t2, rates.brokeragePct);
    ScaledMinSubadditive(a, b, both, rates.brokerageMax, 1.0 + rates.gstPct);
  }

  /** The brokerage before the cap. */
  lemma UncappedBrokerage(t: real, rates: Rates) returns (b: real)
    requires t >= 0.0
    ensures b == t * rates.brokeragePct && b >= 0.0
    ensures CappedCharge(t, rates) == Min(b, rates.brokerageMax) * (1.0 + rates.gstPct)
  {
    b := t * rates.brokeragePct;
    MulNonNegative(t, rates.brokeragePct);
  }

  lemma ScaledMinSubadditive(a: real, b: real, both: real, m: real, g: real)
    requires a >= 0.0 && b >= 0.0 && both == a + b && m >= 0.0 && g >= 0.0
    ensures Min(both, m) * g <= Min(a, m) * g + Min(b, m) * g
  {
    MulMono(Min(both, m), Min(a, m) + Min(b, m), g);
    Distribute(Min(a, m), Min(b, m), g);
  }

  // ---- Properties of the net amount ----

  lemma NetAmountOnTurnover(side: Side, price: real, qty: int, segment: Segment, rates: Rates) returns (t: real)
    requires price > 0.0 && qty > 0
    ensures t == price * qty as real && t > 0.0
    ensures NetAmount(side, price, qty, segment, rates) == CostsOnTurnover(side, t, segment, rates).netAmount
  {
    hide CostsOnTurnover;
    t := Worth(price, qty);
    var d := Gained(0.0, price, qty as real);
  }

  lemma UncappedRateNonNegative(side: Side, segment: Segment, rates: Rates)
    ensures UncappedRate(side, segment, rates) >= 0.0
  {
    MulNonNegative(rates.exchangeTxnPct + rates.sebiPct, 1.0 + rates.gstPct);
  }

  lemma BuyNetStrictlyIncreasing(t1: real, t2: real, segment: Segment, rates: Rates)
    requires 0.0 <= t1 < t2
    ensures 0.0 <= CostsOnTurnover(BUY, t1, segment, rates).netAmount
                <  CostsOnTurnover(BUY, t2, segment, rates).netAmount
  {
    hide *;
    TotalSplits(BUY, t1, segment, rates);
    TotalSplits(BUY, t2, segment, rates);
    CappedChargeMonotone(t1, t2, rates);
    UncappedRateNonNegative(BUY, segment, rates);
    MulMono(t1, t2, UncappedRate(BUY, segment, rates));
    MulMono(0.0, t1, UncappedRate(BUY, segment, rates));
  }

  /** More shares, or a dearer share, always costs strictly more to buy. */
  lemma BuyNetStrictlyMonotone(p1: real, q1: int, p2: real, q2: int, segment: Segment, rates: Rates)
    requires 0.0 < p1 <= p2 && 0 < q1 <= q2 && (p1 < p2 || q1 < q2)
    ensures 0.0 <= NetAmount(BUY, p1, q1, segment, rates) < NetAmount(BUY, p2, q2, segment, rates)
  {
    hide *;
    var t1 := NetAmountOnTurnover(BUY, p1, q1, segment, rates);
    var t2 := NetAmountOnTurnover(BUY, p2, q2, segment, rates);
    ProductIncreases(p1, q1 as real, p2, q2 as real, t1, t2);
    BuyNetStrictlyIncreasing(t1, t2, segment, rates);
  }

  /** Buying in two lots never costs less than buying in one: the flat cap makes costs subadditive. */
  lemma BuyNetSubadditive(price: real, a: int, b: int, segment: Segment, rates: Rates)
    requires price > 0.0 && a > 0 && b > 0
    ensures NetAmount(BUY, price, a + b, segment, rates)
         <= NetAmount(BUY, price, a, segment, rates) + NetAmount(BUY, price, b, segment, rates)
  {
    hide *;
    var ta := NetAmountOnTurnover(BUY, price, a, segment, rates);
    var tb := NetAmountOnTurnover(BUY, price, b, segment, rates);
    var tab := NetAmountOnTurnover(BUY, price, a + b, segment, rates);
    Distribute(a as real, b as real, price);
    TotalSplits(BUY, ta, segment, rates);
    TotalSplits(BUY, tb, segment, rates);
    TotalSplits(BUY, tab, segment, rates);
    CappedChargeSubadditive(ta, tb, rates);
    var u := UncappedRate(BUY, segment, rates);
    Distribute(ta, tb, u);
    assert tab == ta + tb;
    assert tab * u == ta * u + tb * u;
    assert CappedCharge(tab, rates) <= CappedCharge(ta, rates) + CappedCharge(tb, rates);
    assert CostsOnTurnover(BUY, tab, segment, rates).netAmount == tab + (tab * u + CappedCharge(tab, rates));
  }

  /** The share of turnover that brokerage and its GST take while the cap does not bind. */
  ghost function BrokerageRate(rates: Rates): real {
    if rates.brokerageMax > 0.0 then rates.brokeragePct * (1.0 + rates.gstPct) else 0.0
  }

  /** What a SELL loses to charges per rupee of turnover while the brokerage cap does not bind. */
  ghost function SellRate(segment: Segment, rates: Rates): real {
    UncappedRate(SELL, segment, rates) + BrokerageRate(rates)
  }

  lemma CappedChargeBelowRate(t: real, rates: Rates)
    requires t >= 0.0
    ensures CappedCharge(t, rates) <= t * BrokerageRate(rates)
    ensures t * rates.brokeragePct <= rates.brokerageMax ==> CappedCharge(t, rates) == t * BrokerageRate(rates)
    ensures rates.brokerageMax <= 0.0 ==> CappedCharge(t, rates) == t * BrokerageRate(rates)
  {
    var p, g := rates.brokeragePct, 1.0 + rates.gstPct;
    var m := Min(t * p, rates.brokerageMax);
    MulMono(0.0, t, p);
    if rates.brokerageMax > 0.0 {
      MulMono(m, t * p, g);
      assert t * p * g == t * (p * g);
    } else {
      assert m == 0.0;
    }
  }

  lemma SellNetSplits(price: real, qty: int, segment: Segment, rates: Rates) returns (t: real)
    requires price > 0.0 && qty > 0
    ensures t == price * qty as real && t > 0.0
    ensures NetAmount(SELL, price, qty, segment, rates)
         == t - t * SellRate(segment, rates) + (t * BrokerageRate(rates) - CappedCharge(t, rates))
  {
    hide CostsOnTurnover, NetAmount, UncappedRate, CappedCharge, BrokerageRate;
    t := NetAmountOnTurnover(SELL, price, qty, segment, rates);
    TotalSplits(SELL, t, segment, rates);
    var u, b := UncappedRate(SELL, segment, rates), BrokerageRate(rates);
    Distribute(u, b, t);
  }

  lemma SellNetNonNegative(price: real, qty: int, segment: Segment, rates: Rates)
    requires price > 0.0 && qty > 0 && SellRate(segment, rates) <= 1.0
    ensures NetAmount(SELL, price, qty, segment, rates) >= 0.0
  {
    hide *;
    var t := SellNetSplits(price, qty, segment, rates);
    CappedChargeBelowRate(t, rates);
    MulMono(SellRate(segment, rates), 1.0, t);
  }

  lemma SellNetPositive(price: real, qty: int, segment: Segment, rates: Rates)
    requires price > 0.0 && qty > 0 && SellRate(segment, rates) < 1.0
    ensures NetAmount(SELL, price, qty, segment, rates) > 0.0
  {
    hide *;
    var t := SellNetSplits(price, qty, segment, rates);
    CappedChargeBelowRate(t, rates);
    MulStrict(SellRate(segment, rates), 1.0, t);
  }

  /** If the sell-side rates exceed one, some small sale pays out a negative amount. */
  lemma SellNetCanBeNegative(segment: Segment, rates: Rates) returns (price: real)
    requires SellRate(segment, rates) > 1.0
    ensures price > 0.0 && NetAmount(SELL, price, 1, segment, rates) < 0.0
  {
    hide *;
    var p, m := rates.brokeragePct, rates.brokerageMax;
    price := if m > 0.0 && p > 0.0 then m / p else 1.0;
    assert m > 0.0 ==> price * p <= m;
    var t := SellNetSplits(price, 1, segment, rates);
    assert t == price;
    CappedChargeBelowRate(t, rates);
    MulStrict(1.0, SellRate(segment, rates), t);
  }

  /** A SELL pays out a non-negative amount for every price and quantity exactly when the rates allow it. */
  lemma SellNetNonNegativeIff(segment: Segment, rates: Rates)
    ensures SellRate(segment, rates) <= 1.0
       <==> forall price: real, qty: int :: price > 0.0 && qty > 0 ==>
              NetAmount(SELL, price, qty, segment, rates) >= 0.0
  {
    hide *;
    if SellRate(segment, rates) <= 1.0 {
      forall price: real, qty: int | price > 0.0 && qty > 0
        ensures NetAmount(SELL, price, qty, segment, rates) >= 0.0
      {
        SellNetNonNegative(price, qty, segment, rates);
      }
    } else {
      var price := SellNetCanBeNegative(segment, rates);
    }
  }

  // ---- Who pays what ----

  /**
   * Each charge by its own name: brokerage is a share of the turnover up to a cap; delivery pays transaction tax on
   * both sides alike and intraday only when selling; stamp duty is for buyers; goods and services tax falls on
   * brokerage and the two exchange charges only; and what a leg nets is its turnover less, or plus, all of them.
   */
  lemma ChargesFallOn(side: Side, turnover: real, segment: Segment, rates: Rates)
    requires turnover >= 0.0
    ensures var c := CostsOnTurnover(side, turnover, segment, rates);
      && 0.0 <= c.brokerage <= rates.brokerageMax
      && (turnover * rates.brokeragePct <= rates.brokerageMax ==> c.brokerage == turnover * rates.brokeragePct)
      && (turnover * rates.brokeragePct > rates.brokerageMax ==> c.brokerage == rates.brokerageMax)
      && (segment == DELIVERY ==> c.stt == rates.sttDeliveryPct * turnover)
      && (segment == INTRADAY ==> c.stt == if side == SELL then rates.sttIntradaySellPct * turnover else 0.0)
      && (side == SELL ==> c.stampDuty == 0.0)
      && (side == BUY && segment == DELIVERY ==> c.stampDuty == rates.stampDutyBuyDeliveryPct * turnover)
      && (side == BUY && segment == INTRADAY ==> c.stampDuty == rates.stampDutyBuyIntradayPct * turnover)
      && c.exchangeCharges == rates.exchangeTxnPct * turnover && c.sebiCharges == rates.sebiPct * turnover
      && c.gst == rates.gstPct * (c.brokerage + c.exchangeCharges + c.sebiCharges)
      && c.total == c.brokerage + c.stt + c.stampDuty + c.exchangeCharges + c.sebiCharges + c.gst
      && (side == BUY ==> c.netAmount - turnover == c.total) && (side == SELL ==> turnover - c.netAmount == c.total)
  {
    MulNonNegative(turnover, rates.brokeragePct);
  }

  /** The rates a configuration has unless it says otherwise. */
  const DEFAULT_RATES: Rates := CostRates(0.0003, 20.0, 0.001, 0.00025, 0.0000297, 0.000001, 0.00015, 0.00003, 0.18)

  /** Ten shares at a thousand, at the default rates; and an order large enough for the cap. */
  lemma DefaultCosts()
    ensures CalculateCosts(BUY, 1000.0, 10, DELIVERY, DEFAULT_RATES)
         == Ok(TradeCosts(3.0, 10.0, 1.5, 0.297, 0.01, 0.59526, 15.40226, 10015.40226))
    ensures CalculateCosts(SELL, 1000.0, 10, DELIVERY, DEFAULT_RATES)
         == Ok(TradeCosts(3.0, 10.0, 0.0, 0.297, 0.01, 0.59526, 13.90226, 9986.09774))
    ensures CalculateCosts(BUY, 1000.0, 10, INTRADAY, DEFAULT_RATES)
         == Ok(TradeCosts(3.0, 0.0, 0.3, 0.297, 0.01, 0.59526, 4.20226, 10004.20226))
    ensures CalculateCosts(SELL, 1000.0, 10, INTRADAY, DEFAULT_RATES)
         == Ok(TradeCosts(3.0, 2.5, 0.0, 0.297, 0.01, 0.59526, 6.40226, 9993.59774))
    ensures CalculateCosts(BUY, 500.0, 1000, DELIVERY, DEFAULT_RATES).Ok?
    ensures CalculateCosts(BUY, 500.0, 1000, DELIVERY, DEFAULT_RATES).value.brokerage == 20.0
  {
  }

  /** Slippage always works against the trader, by the same fraction on both sides. */
  lemma SlippageIsAdverse(price: real, slippageBps: real)
    requires price > 0.0 && slippageBps >= 0.0
    ensures ApplySlippage(price, BUY, slippageBps) >= price >= ApplySlippage(price, SELL, slippageBps)
    ensures ApplySlippage(price, BUY, slippageBps) - price == price - ApplySlippage(price, SELL, slippageBps)
    ensures ApplySlippage(price, BUY, slippageBps) == price <==> slippageBps == 0.0
    ensures ApplySlippage(price, BUY, 5.0) == price * 1.0005 && ApplySlippage(price, SELL, 5.0) == price * 0.9995
  {
    var f := slippageBps / 10000.0;
    MulNonNegative(price, f);
    if f > 0.0 { MulStrict(0.0, f, price); }
    assert price * (1.0 + f) == price + price * f && price * (1.0 - f) == price - price * f;
  }

  // ---- The cash clamp ----

  /**
   * Both ledgers shrink a BUY one share at a time until it fits; a non-positive price
   * raises ValueError as soon as a cost is computed.
   */
  function ClampToCash(qty: int, price: real, segment: Segment, rates: Rates, cash: real): (r: Result<int>)
    ensures r.Err? <==> qty > 0 && price <= 0.0
    ensures r.Ok? ==> r.value >= 0
    ensures r.Ok? && r.value > 0 ==> r.value <= qty && NetAmount(BUY, price, r.value, segment, rates) <= cash
    ensures r.Ok? ==> forall q :: r.value < q <= qty ==> NetAmount(BUY, price, q, segment, rates) > cash
    decreases qty
  {
    if qty <= 0 then Ok(0)
    else
      match CalculateCosts(BUY, price, qty, segment, rates)
      case Err(e) => Err(e)
      case Ok(c) => if c.netAmount <= cash then Ok(qty) else ClampToCash(qty - 1, price, segment, rates, cash)
  }

  /** The clamp is the greatest affordable quantity, and everything below it is affordable too. */
  lemma ClampIsGreatestAffordable(qty: int, price: real, segment: Segment, rates: Rates, cash: real)
    requires price > 0.0 && qty >= 0
    ensures var r := ClampToCash(qty, price, segment, rates, cash).value;
      forall q :: 0 < q <= qty ==> (NetAmount(BUY, price, q, segment, rates) <= cash <==> q <= r)
  {
    var r := ClampToCash(qty, price, segment, rates, cash).value;
    forall q | 0 < q <= r
      ensures NetAmount(BUY, price, q, segment, rates) <= cash
    {
      if q < r { BuyNetStrictlyMonotone(price, q, price, r, segment, rates); }
    }
  }

  /** More cash never buys fewer shares; a dearer share never buys more. */
  lemma ClampMonotone(qty: int, p1: real, p2: real, segment: Segment, rates: Rates, cash1: real, cash2: real)
    requires 0.0 < p1 <= p2 && cash2 <= cash1
    ensures ClampToCash(qty, p2, segment, rates, cash2).value <= ClampToCash(qty, p1, segment, rates, cash1).value
  {
    var r := ClampToCash(qty, p2, segment, rates, cash2).value;
    if r > 0 {
      if p1 < p2 { BuyNetStrictlyMonotone(p1, r, p2, r, segment, rates); }
      ClampIsGreatestAffordable(qty, p1, segment, rates, cash1);
    }
  }

  /**
   * Exhaustion: once a BUY has been clamped below what was asked, what is left of the cash
   * cannot pay for one more share at that price, so a second clamp yields nothing.
   */
  lemma ClampExhaustsCash(qty: int, price: real, segment: Segment, rates: Rates, cash: real, left: real, more: int)
    requires price > 0.0
    requires var r := ClampToCash(qty, price, segment, rates, cash).value;
      0 < r < qty && left <= cash - NetAmount(BUY, price, r, segment, rates)
    ensures left < NetAmount(BUY, price, 1, segment, rates)
    ensures ClampToCash(more, price, segment, rates, left) == Ok(0)
  {
    var r := ClampToCash(qty, price, segment, rates, cash).value;
    assert NetAmount(BUY, price, r + 1, segment, rates) > cash;
    BuyNetSubadditive(price, r, 1, segment, rates);
    var again := ClampToCash(more, price, segment, rates, left);
    if again.Ok? && again.value > 1 {
      BuyNetStrictlyMonotone(price, 1, price, again.value, segment, rates);
    }
  }
}
