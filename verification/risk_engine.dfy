/** The risk engine: the only gate between a signal and an order. */
module RiskGate {
  import opened Costs
  import opened PositionBook
  import opened KillSwitches
  import opened Strategies

  datatype Mode = PAPER | LIVE

  datatype RiskConfig = RiskConfig(
    maxOpenPositions: int,
    maxDailyLossPct: real,
    maxConsecutiveErrors: nat,
    sizer: (real, real) -> int)

  datatype RejectionReason =
    | KILL_SWITCH_TRIPPED | LIVE_ORDERS_DISABLED | MAX_DAILY_LOSS | MAX_OPEN_POSITIONS
    | ALREADY_IN_POSITION | NO_OPEN_POSITION | ZERO_QUANTITY

  datatype Decision = Approved(side: Side, qty: int) | Rejected(reason: RejectionReason)

  // ---- Limits and sizing ----

  function ExceedsMaxOpenPositions(openCount: int, maxOpenPositions: int): bool { openCount >= maxOpenPositions }

  function ExceedsMaxDailyLoss(dailyRealizedPnl: real, equity: real, maxDailyLossPct: real): bool {
    if dailyRealizedPnl >= 0.0 || equity <= 0.0 then false
    else (-dailyRealizedPnl / equity) * 100.0 >= maxDailyLossPct
  }

  /** The day's loss, if any, is below the given percentage of a positive equity. */
  predicate WithinDailyLoss(dailyRealizedPnl: real, equity: real, maxDailyLossPct: real) {
    dailyRealizedPnl < 0.0 && equity > 0.0 ==> -dailyRealizedPnl * 100.0 < maxDailyLossPct * equity
  }

  lemma LossLimitIff(dailyRealizedPnl: real, equity: real, maxDailyLossPct: real)
    ensures WithinDailyLoss(dailyRealizedPnl, equity, maxDailyLossPct)
       <==> !ExceedsMaxDailyLoss(dailyRealizedPnl, equity, maxDailyLossPct)
  {
    if equity > 0.0 {
      var loss := -dailyRealizedPnl;
      var share := loss / equity;
      assert share * equity == loss;
      if share * 100.0 < maxDailyLossPct {
        MulStrict(share * 100.0, maxDailyLossPct, equity);
      } else {
        MulMono(maxDailyLossPct, share * 100.0, equity);
      }
      assert share * 100.0 * equity == loss * 100.0;
    }
  }

  /** Shares a fixed fraction of equity buys at this price. */
  function FixedFractionalSize(riskPerTradePct: real, equity: real, price: real): int {
    if price <= 0.0 || equity <= 0.0 then 0
    else
      var q := (equity * (riskPerTradePct / 100.0) / price).Floor;
      if q > 0 then q else 0
  }

  /** The size is the greatest number of whole shares the allocation pays for; without a price or equity it is none. */
  lemma SizeIsGreatestAffordable(pct: real, equity: real, price: real)
    requires 0.0 < pct <= 100.0
    ensures var q := FixedFractionalSize(pct, equity, price);
      && q >= 0
      && (price > 0.0 && equity > 0.0 ==> q as real * price <= equity * (pct / 100.0) < (q + 1) as real * price)
      && (price <= 0.0 || equity <= 0.0 ==> q == 0)
  {
    if price > 0.0 && equity > 0.0 { AllocationBuys(pct, equity, price); }
  }

  lemma AllocationBuys(pct: real, equity: real, price: real)
    requires 0.0 < pct && price > 0.0 && equity > 0.0
    ensures var q := FixedFractionalSize(pct, equity, price);
      q >= 0 && q as real * price <= equity * (pct / 100.0) < (q + 1) as real * price
  {
    var allocation := equity * (pct / 100.0);
    MulStrict(0.0, equity, pct / 100.0);
    var x := allocation / price;
    assert x * price == allocation;
    FloorBrackets(x, price, allocation);
  }

  lemma FloorBrackets(x: real, price: real, allocation: real)
    requires price > 0.0 && allocation > 0.0 && x * price == allocation
    ensures x.Floor >= 0 && x.Floor as real * price <= allocation < (x.Floor + 1) as real * price
  {
    assert x > 0.0;
    var f := x.Floor;
    ScaledBracket(f as real, x, (f + 1) as real, price, allocation);
  }

  lemma ScaledBracket(lo: real, x: real, hi: real, price: real, product: real)
    requires lo <= x < hi && price > 0.0 && product == x * price
    ensures lo * price <= product < hi * price
  {
    MulMono(lo, x, price);
    MulStrict(x, hi, price);
  }

  /** Round to the nearest integer, ties to the even one. */
  function RoundHalfEven(x: real): int {
    var f := x.Floor;
    if x - f as real < 0.5 then f
    else if x - f as real > 0.5 then f + 1
    else if f % 2 == 0 then f else f + 1
  }

  /** Quantize a price to the tick size; a non-positive tick leaves it alone. */
  function ToTick(price: real, tickSize: real): real {
    if tickSize <= 0.0 then price else RoundHalfEven(price / tickSize) as real * tickSize
  }

  /**
   * The quantized price is a whole number of ticks, at most half a tick away, and an even number of them when the
   * next tick is just as near. Without a tick size it is the price itself.
   */
  lemma ToTickIsNearest(price: real, tickSize: real)
    ensures tickSize <= 0.0 ==> ToTick(price, tickSize) == price
    ensures tickSize > 0.0 ==>
      && -0.5 * tickSize <= ToTick(price, tickSize) - price <= 0.5 * tickSize
      && exists n: int :: IsTicks(n, price, tickSize, ToTick(price, tickSize))
  {
    if tickSize > 0.0 {
      hide IsTicks;
      HalfTickAway(price, tickSize);
      WholeTicks(price, tickSize);
    }
  }

  /** `t` is `n` ticks; if the price lies midway between two whole numbers of ticks, `n` is the even one. */
  predicate IsTicks(n: int, price: real, tickSize: real, t: real)
    requires tickSize > 0.0
  {
    var x := price / tickSize;
    t == n as real * tickSize && (x - n as real == 0.5 || n as real - x == 0.5 ==> n % 2 == 0)
  }

  lemma WholeTicks(price: real, tickSize: real)
    requires tickSize > 0.0
    ensures IsTicks(RoundHalfEven(price / tickSize), price, tickSize, ToTick(price, tickSize))
  {
    NearestWhole(price / tickSize);
  }

  lemma HalfTickAway(price: real, tickSize: real)
    requires tickSize > 0.0
    ensures -0.5 * tickSize <= ToTick(price, tickSize) - price <= 0.5 * tickSize
  {
    var x := price / tickSize;
    assert x * tickSize == price;
    NearestWhole(x);
    Scaled(RoundHalfEven(x) as real, x, tickSize, ToTick(price, tickSize), price);
  }

  lemma NearestWhole(x: real)
    ensures x - 0.5 <= RoundHalfEven(x) as real <= x + 0.5
    ensures x - RoundHalfEven(x) as real == 0.5 || x - RoundHalfEven(x) as real == -0.5 ==> RoundHalfEven(x) % 2 == 0
  {
  }

  lemma Scaled(r: real, x: real, tickSize: real, t: real, price: real)
    requires tickSize > 0.0 && x - 0.5 <= r <= x + 0.5 && t == r * tickSize && price == x * tickSize
    ensures -0.5 * tickSize <= t - price <= 0.5 * tickSize
  {
    var p := HalfTick(r - x, tickSize);
    assert p == t - price;
  }

  lemma HalfTick(d: real, tickSize: real) returns (p: real)
    requires tickSize > 0.0 && -0.5 <= d <= 0.5
    ensures p == d * tickSize && -0.5 * tickSize <= p <= 0.5 * tickSize
  {
    p := d * tickSize;
    MulNonNegative(0.5 - d, tickSize);
    MulNonNegative(d + 0.5, tickSize);
    assert (0.5 - d) * tickSize == 0.5 * tickSize - p;
    assert (d + 0.5) * tickSize == p + 0.5 * tickSize;
  }

  /** Instruments with a non-zero quantity. */
  function OpenSet(positions: map<int, Position>): set<int> {
    set i | i in positions && positions[i].qty != 0
  }

  function CountOpen(positions: map<int, Position>): nat { |OpenSet(positions)| }

  // ---- The decision ----

  function Reject(k: KillState, reason: RejectionReason, kind: RiskEventKind): (Decision, KillState) {
    (Rejected(reason), Log(k, kind))
  }

  function Evaluate(cfg: RiskConfig, k: KillState, positions: map<int, Position>, mode: Mode, s: Signal,
                    instrumentId: int, tickSize: real, equity: real, dailyRealizedPnl: real,
                    liveOrdersEnabled: bool): (Decision, KillState)
  {
    if k.tripped then Reject(k, KILL_SWITCH_TRIPPED, REJECTION)
    else if mode == LIVE && !liveOrdersEnabled then Reject(k, LIVE_ORDERS_DISABLED, REJECTION)
    else if ExceedsMaxDailyLoss(dailyRealizedPnl, equity, cfg.maxDailyLossPct) then
      Reject(k, MAX_DAILY_LOSS, LIMIT_BREACH)
    else
      var qty := QtyOf(positions, instrumentId);
      if s.direction == EXIT then
        if qty == 0 then Reject(k, NO_OPEN_POSITION, REJECTION)
        else (Approved(if qty > 0 then SELL else BUY, Abs(qty)), k)
      else if qty != 0 then Reject(k, ALREADY_IN_POSITION, REJECTION)
      else if ExceedsMaxOpenPositions(CountOpen(positions), cfg.maxOpenPositions) then
        Reject(k, MAX_OPEN_POSITIONS, LIMIT_BREACH)
      else
        var size := cfg.sizer(equity, ToTick(s.refPrice, tickSize));
        if size <= 0 then Reject(k, ZERO_QUANTITY, REJECTION)
        else (Approved(if s.direction == LONG then BUY else SELL, size), k)
  }

  /**
   * What an approval guarantees: the switch is clear, live trading is doubly enabled, and the order either
   * closes exactly what is held or opens from flat with room under the cap. A rejection logs one event
   * that is neither a trip nor a reset; an approval logs none.
   */
  lemma ApprovalIsSafe(cfg: RiskConfig, k: KillState, positions: map<int, Position>, mode: Mode, s: Signal,
                       instrumentId: int, tickSize: real, equity: real, dailyRealizedPnl: real,
                       liveOrdersEnabled: bool)
    ensures var (d, k') := Evaluate(cfg, k, positions, mode, s, instrumentId, tickSize, equity, dailyRealizedPnl,
                                    liveOrdersEnabled);
      var held := QtyOf(positions, instrumentId);
      && (d.Approved? ==>
            && k' == k && !k.tripped && (mode == LIVE ==> liveOrdersEnabled) && d.qty > 0
            && WithinDailyLoss(dailyRealizedPnl, equity, cfg.maxDailyLossPct)
            && (held != 0 ==> s.direction == EXIT && SignedQty(d.side, d.qty) == -held)
            && (held == 0 ==> s.direction != EXIT && CountOpen(positions) < cfg.maxOpenPositions))
      && (d.Rejected? ==> exists e :: !IsSwitchEvent(e) && k' == Log(k, e))
  {
    hide ExceedsMaxDailyLoss, WithinDailyLoss;
    LossLimitIff(dailyRealizedPnl, equity, cfg.maxDailyLossPct);
    var (d, k') := Evaluate(cfg, k, positions, mode, s, instrumentId, tickSize, equity, dailyRealizedPnl,
                            liveOrdersEnabled);
    if d.Rejected? { assert k' == Log(k, REJECTION) || k' == Log(k, LIMIT_BREACH); }
  }

  /**
   * Exactly when a signal is approved, and for what: a clear switch, both keys for live orders, the day's loss below
   * its limit, and either an EXIT of something held, which trades back exactly that, or a LONG or SHORT from flat
   * with room under the cap, for a positive size that the sizer makes of the equity at the price rounded to a tick.
   */
  lemma ApprovedIff(cfg: RiskConfig, k: KillState, positions: map<int, Position>, mode: Mode, s: Signal,
                    instrumentId: int, tickSize: real, equity: real, dailyRealizedPnl: real, liveOrdersEnabled: bool)
    ensures var (d, k') := Evaluate(cfg, k, positions, mode, s, instrumentId, tickSize, equity, dailyRealizedPnl,
                                    liveOrdersEnabled);
      var held, size := QtyOf(positions, instrumentId), cfg.sizer(equity, ToTick(s.refPrice, tickSize));
      && (d.Approved? <==>
            && !k.tripped && (mode == PAPER || liveOrdersEnabled)
            && WithinDailyLoss(dailyRealizedPnl, equity, cfg.maxDailyLossPct)
            && (if s.direction == EXIT then held != 0
                else held == 0 && CountOpen(positions) < cfg.maxOpenPositions && size > 0))
      && (d.Approved? ==>
            && k' == k
            && match s.direction
               case EXIT => d.qty == Abs(held) && SignedQty(d.side, d.qty) == -held
               case LONG => d == Approved(BUY, size)
               case SHORT => d == Approved(SELL, size))
  {
    hide ToTick, CountOpen, ExceedsMaxDailyLoss, WithinDailyLoss;
    LossLimitIff(dailyRealizedPnl, equity, cfg.maxDailyLossPct);
  }

  /** Exactly when each reason is given, in the order of the checks, and how it is logged. */
  lemma RejectedIff(cfg: RiskConfig, k: KillState, positions: map<int, Position>, mode: Mode, s: Signal,
                    instrumentId: int, tickSize: real, equity: real, dailyRealizedPnl: real, liveOrdersEnabled: bool)
    ensures var (d, k') := Evaluate(cfg, k, positions, mode, s, instrumentId, tickSize, equity, dailyRealizedPnl,
                                    liveOrdersEnabled);
      var held, size := QtyOf(positions, instrumentId), cfg.sizer(equity, ToTick(s.refPrice, tickSize));
      var keys := !k.tripped && (mode == PAPER || liveOrdersEnabled);
      var allowed := keys && WithinDailyLoss(dailyRealizedPnl, equity, cfg.maxDailyLossPct);
      var room := CountOpen(positions) < cfg.maxOpenPositions;
      && (d == Rejected(KILL_SWITCH_TRIPPED) <==> k.tripped)
      && (d == Rejected(LIVE_ORDERS_DISABLED) <==> !k.tripped && mode == LIVE && !liveOrdersEnabled)
      && (d == Rejected(MAX_DAILY_LOSS) <==> keys && !allowed)
      && (d == Rejected(NO_OPEN_POSITION) <==> allowed && s.direction == EXIT && held == 0)
      && (d == Rejected(ALREADY_IN_POSITION) <==> allowed && s.direction != EXIT && held != 0)
      && (d == Rejected(MAX_OPEN_POSITIONS) <==> allowed && s.direction != EXIT && held == 0 && !room)
      && (d == Rejected(ZERO_QUANTITY) <==> allowed && s.direction != EXIT && held == 0 && room && size <= 0)
      && (d.Rejected? ==>
            k' == Log(k, if d.reason == MAX_DAILY_LOSS || d.reason == MAX_OPEN_POSITIONS then LIMIT_BREACH
                         else REJECTION))
  {
    hide ToTick, CountOpen, ExceedsMaxDailyLoss, WithinDailyLoss;
    LossLimitIff(dailyRealizedPnl, equity, cfg.maxDailyLossPct);
  }

  class RiskEngine {
    const cfg: RiskConfig
    const killSwitch: KillSwitch

    constructor (cfg: RiskConfig, killSwitch: KillSwitch)
      ensures this.cfg == cfg && this.killSwitch == killSwitch
    {
      this.cfg, this.killSwitch := cfg, killSwitch;
    }

    method RejectSignal(reason: RejectionReason, kind: RiskEventKind) returns (d: Decision)
      modifies killSwitch
      ensures (d, killSwitch.State()) == Reject(old(killSwitch.State()), reason, kind)
    {
      killSwitch.DoLog(kind);
      d := Rejected(reason);
    }

    method EvaluateSignal(positions: map<int, Position>, mode: Mode, s: Signal, instrumentId: int, tickSize: real,
                          equity: real, dailyRealizedPnl: real, liveOrdersEnabled: bool) returns (d: Decision)
      modifies killSwitch
      ensures (d, killSwitch.State())
           == Evaluate(cfg, old(killSwitch.State()), positions, mode, s, instrumentId, tickSize, equity,
                       dailyRealizedPnl, liveOrdersEnabled)
    {
      hide ToTick, CountOpen, ExceedsMaxDailyLoss;
      if killSwitch.tripped {
        d := RejectSignal(KILL_SWITCH_TRIPPED, REJECTION);
        return;
      }
      if mode == LIVE && !liveOrdersEnabled {
        d := RejectSignal(LIVE_ORDERS_DISABLED, REJECTION);
        return;
      }
      if ExceedsMaxDailyLoss(dailyRealizedPnl, equity, cfg.maxDailyLossPct) {
        d := RejectSignal(MAX_DAILY_LOSS, LIMIT_BREACH);
        return;
      }
      var qty := QtyOf(positions, instrumentId);
      if s.direction == EXIT {
        if qty == 0 {
          d := RejectSignal(NO_OPEN_POSITION, REJECTION);
          return;
        }
        return Approved(if qty > 0 then SELL else BUY, Abs(qty));
      }
      if qty != 0 {
        d := RejectSignal(ALREADY_IN_POSITION, REJECTION);
        return;
      }
      if ExceedsMaxOpenPositions(CountOpen(positions), cfg.maxOpenPositions) {
        d := RejectSignal(MAX_OPEN_POSITIONS, LIMIT_BREACH);
        return;
      }
      var size := cfg.sizer(equity, ToTick(s.refPrice, tickSize));
      if size <= 0 {
        d := RejectSignal(ZERO_QUANTITY, REJECTION);
        return;
      }
      d := Approved(if s.direction == LONG then BUY else SELL, size);
    }
  }
}
