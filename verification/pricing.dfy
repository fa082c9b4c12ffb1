/** The arithmetic of an approval: price quantization, position sizing, exposure and the risk veto.
    Prices and quantities are exact reals; the source computes the rounding in decimals. */
module Pricing {
  import opened Wrappers

  datatype Instrument = Instrument(minSize: real, lotSize: real, tickSize: real)

  // ----- whole steps -----

  function CeilReal(x: real): int {
    if x.Floor as real == x then x.Floor else x.Floor + 1
  }

  /** ROUND_DOWN: toward zero. */
  function TruncReal(x: real): int {
    if x >= 0.0 then x.Floor else -((-x).Floor)
  }

  /** `n` whole steps. */
  function Steps(n: int, step: real): real {
    n as real * step
  }

  ghost predicate IsMultiple(x: real, step: real) {
    exists n: int :: x == Steps(n, step)
  }

  lemma MulMonotone(a: real, b: real, c: real)
    requires a <= b && c >= 0.0
    ensures a * c <= b * c
  {
    assert (b - a) * c >= 0.0;
  }

  lemma MulStrict(a: real, b: real, c: real)
    requires a < b && c > 0.0
    ensures a * c < b * c
  {
    assert (b - a) * c > 0.0;
  }

  lemma MulOrder(a: real, b: real, c: real)
    requires c > 0.0
    ensures a <= b <==> a * c <= b * c
  {
    if a <= b {
      MulMonotone(a, b, c);
    } else {
      MulStrict(b, a, c);
    }
  }

  lemma StepOrder(a: int, b: int, step: real)
    requires step > 0.0
    ensures a <= b <==> Steps(a, step) <= Steps(b, step)
  {
    MulOrder(a as real, b as real, step);
  }

  /** Rounding a quotient down keeps exactly the whole steps that fit. */
  lemma FloorCounts(value: real, step: real, n: int)
    requires step > 0.0
    ensures n <= (value / step).Floor <==> Steps(n, step) <= value
  {
    DivideBound(n as real, value, step);
  }

  /** Rounding a quotient up keeps exactly the whole steps that are enough. */
  lemma CeilCounts(value: real, step: real, n: int)
    requires step > 0.0
    ensures CeilReal(value / step) <= n <==> value <= Steps(n, step)
  {
    var q := value / step;
    assert q * step == value;
    MulOrder(q, n as real, step);
  }

  lemma DivideBound(x: real, total: real, unit: real)
    requires unit > 0.0
    ensures x <= total / unit <==> x * unit <= total
  {
    var q := total / unit;
    assert q * unit == total;
    MulOrder(x, q, unit);
  }

  datatype Priced = InvalidPrice(reason: string) | Priced(entry: real, stop: real, target: real)

  function QuantizeUp(value: real, tick: real): real
    requires tick > 0.0
  {
    Steps(CeilReal(value / tick), tick)
  }

  function QuantizeDown(value: real, tick: real): real
    requires tick > 0.0
  {
    Steps((value / tick).Floor, tick)
  }

  /** Rounding up lands on the first tick at or above the value. */
  lemma QuantizedUp(value: real, tick: real, n: int)
    requires tick > 0.0
    ensures IsMultiple(QuantizeUp(value, tick), tick)
    ensures value <= QuantizeUp(value, tick) < value + tick
    ensures value <= Steps(n, tick) <==> QuantizeUp(value, tick) <= Steps(n, tick)
  {
    hide CeilReal, Steps;
    var up := CeilReal(value / tick);
    CeilCounts(value, tick, up);
    CeilCounts(value, tick, up - 1);
    assert Steps(up - 1, tick) == Steps(up, tick) - tick by {
      OneStep(up - 1, tick);
    }
    CeilCounts(value, tick, n);
    StepOrder(up, n, tick);
  }

  /** Rounding down lands on the last tick at or below the value. */
  lemma QuantizedDown(value: real, tick: real, n: int)
    requires tick > 0.0
    ensures IsMultiple(QuantizeDown(value, tick), tick)
    ensures value - tick < QuantizeDown(value, tick) <= value
    ensures Steps(n, tick) <= value <==> Steps(n, tick) <= QuantizeDown(value, tick)
  {
    hide Steps;
    var down := (value / tick).Floor;
    FloorCounts(value, tick, down);
    FloorCounts(value, tick, down + 1);
    OneStep(down, tick);
    FloorCounts(value, tick, n);
    StepOrder(n, down, tick);
  }

  lemma OneStep(n: int, step: real)
    ensures Steps(n + 1, step) == Steps(n, step) + step
  {
  }

  /** `quantize_long_execution_prices`: entry and stop up, target down, and the order re-checked. */
  function QuantizeLong(entry: real, stop: real, target: real, tick: real): Priced {
    if tick <= 0.0 || entry <= 0.0 || stop <= 0.0 || target <= 0.0 then InvalidPrice("INVALID_PRICE_OR_TICK_SIZE")
    else
      var e, s, t := QuantizeUp(entry, tick), QuantizeUp(stop, tick), QuantizeDown(target, tick);
      if 0.0 < s < e < t then Priced(e, s, t) else InvalidPrice("INVALID_QUANTIZED_PROTECTION_PRICES")
  }

  function RiskReward(entry: real, stop: real, target: real): real
    requires stop < entry
  {
    (target - entry) / (entry - stop)
  }

  // ----- sizing -----

  /** Quantities are counted in whole lots: `Steps(lots, lotSize)` base units. `SizeRaised` is the
      source's ValueError for an instrument without size rules. */
  datatype Sizing = SizeRejected(reason: string) | SizeRaised(reason: string) | Sized(lots: int, capped: bool)

  function Min(a: real, b: real): real {
    if a <= b then a else b
  }

  /** The quantity before rounding: the risk budget over the stop distance, capped by the position
      limit and the available funds. */
  function RawQuantity(equity: real, available: real, entry: real, stop: real, riskPerTrade: real,
                       maxPositionPct: real): real
    requires 0.0 < entry && stop < entry
  {
    Min(equity * riskPerTrade / (entry - stop), Min(equity * maxPositionPct, available) / entry)
  }

  function CalculatePositionSize(equity: real, available: real, i: Instrument, entry: real, stop: real,
                                 riskPerTrade: real, maxPositionPct: real): Sizing
  {
    if equity <= 0.0 || available <= 0.0 then SizeRejected("ACCOUNT_FUNDS_UNAVAILABLE")
    else if entry <= 0.0 || stop <= 0.0 || entry - stop <= 0.0 then SizeRejected("INVALID_STOP_DISTANCE")
    else if i.lotSize <= 0.0 then SizeRaised("lot size must be positive")
    else
      var lots := TruncReal(RawQuantity(equity, available, entry, stop, riskPerTrade, maxPositionPct) / i.lotSize);
      if Steps(lots, i.lotSize) < i.minSize then SizeRejected("BELOW_MINIMUM_ORDER_SIZE")
      else Sized(lots, Min(equity * maxPositionPct, available) / entry < equity * riskPerTrade / (entry - stop))
  }

  /** A quantity of `lots` stays within the risk budget, the position limit and the funds. */
  predicate WithinBudget(lots: int, lotSize: real, equity: real, available: real, entry: real, stop: real,
                         riskPerTrade: real, maxPositionPct: real)
  {
    && Steps(lots, lotSize) * (entry - stop) <= equity * riskPerTrade
    && Steps(lots, lotSize) * entry <= equity * maxPositionPct
    && Steps(lots, lotSize) * entry <= available
  }

  lemma BudgetIsRaw(lots: int, lotSize: real, equity: real, available: real, entry: real, stop: real,
                    riskPerTrade: real, maxPositionPct: real)
    requires 0.0 < entry && stop < entry
    ensures WithinBudget(lots, lotSize, equity, available, entry, stop, riskPerTrade, maxPositionPct) <==>
            Steps(lots, lotSize) <= RawQuantity(equity, available, entry, stop, riskPerTrade, maxPositionPct)
  {
    hide Steps;
    DivideBound(Steps(lots, lotSize), equity * riskPerTrade, entry - stop);
    DivideBound(Steps(lots, lotSize), Min(equity * maxPositionPct, available), entry);
  }

  /** Truncating a quantity that is not negative is rounding down. */
  lemma TruncCounts(value: real, step: real, n: int)
    requires step > 0.0 && value >= 0.0
    ensures n <= TruncReal(value / step) <==> Steps(n, step) <= value
  {
    hide Steps;
    DivideBound(0.0, value, step);
    FloorCounts(value, step, n);
  }

  /** Truncating a negative quantity rounds up. */
  lemma TruncRaises(value: real, step: real)
    requires step > 0.0 && value < 0.0
    ensures value <= Steps(TruncReal(value / step), step)
    ensures TruncReal(value / step) <= 0
    ensures value == Steps(TruncReal(value / step), step) ==>
      forall n :: n <= TruncReal(value / step) <==> Steps(n, step) <= value
  {
    hide Steps;
    DivideBound(0.0, value, step);
    assert -(value / step) == (-value) / step;
    var lots := TruncReal(value / step);
    FloorCounts(-value, step, -lots);
    NegatedSteps(lots, step);
    forall n ensures n <= lots <==> Steps(n, step) <= Steps(lots, step) {
      StepOrder(n, lots, step);
    }
  }

  lemma NegatedSteps(n: int, step: real)
    ensures Steps(-n, step) == -Steps(n, step)
  {
  }

  /** An approved size is within every budget, and no larger whole number of lots is, except that a
      negative quantity, which only an instrument without a minimum size lets through, is rounded up:
      unless it is a whole number of lots, what comes out is then over a budget. */
  lemma SizeIsLargest(equity: real, available: real, i: Instrument, entry: real, stop: real,
                      riskPerTrade: real, maxPositionPct: real, other: int)
    requires CalculatePositionSize(equity, available, i, entry, stop, riskPerTrade, maxPositionPct).Sized?
    ensures 0.0 < entry && stop < entry
    ensures
      var lots := CalculatePositionSize(equity, available, i, entry, stop, riskPerTrade, maxPositionPct).lots;
      var raw := RawQuantity(equity, available, entry, stop, riskPerTrade, maxPositionPct);
      && i.minSize <= Steps(lots, i.lotSize)
      && (i.minSize > 0.0 ==> lots > 0 && raw >= 0.0)
      && (raw >= 0.0 || raw == Steps(lots, i.lotSize) ==>
            (WithinBudget(other, i.lotSize, equity, available, entry, stop, riskPerTrade, maxPositionPct) <==> other <= lots))
      && (raw < 0.0 && raw != Steps(lots, i.lotSize) ==>
            !WithinBudget(lots, i.lotSize, equity, available, entry, stop, riskPerTrade, maxPositionPct))
  {
    hide Steps, TruncReal, WithinBudget, RawQuantity;
    var raw := RawQuantity(equity, available, entry, stop, riskPerTrade, maxPositionPct);
    var lots := TruncReal(raw / i.lotSize);
    PositiveSteps(lots, i.lotSize);
    BudgetIsRaw(other, i.lotSize, equity, available, entry, stop, riskPerTrade, maxPositionPct);
    BudgetIsRaw(lots, i.lotSize, equity, available, entry, stop, riskPerTrade, maxPositionPct);
    if raw >= 0.0 {
      TruncCounts(raw, i.lotSize, other);
    } else {
      TruncRaises(raw, i.lotSize);
    }
  }

  lemma PositiveSteps(n: int, step: real)
    requires step > 0.0
    ensures n > 0 <==> Steps(n, step) > 0.0
  {
    StepOrder(n, 0, step);
  }

  lemma PositiveTrunc(value: real, step: real)
    requires step > 0.0 && TruncReal(value / step) > 0
    ensures value > 0.0
  {
    hide Steps;
    DivideBound(0.0, value, step);
    if value < 0.0 {
      TruncRaises(value, step);
    }
  }

  /** `minimum_executable_quantity` in lots. */
  function MinimumLots(i: Instrument): Option<int> {
    if i.minSize <= 0.0 || i.lotSize <= 0.0 then None else Some(CeilReal(i.minSize / i.lotSize))
  }

  /** `cap_position_size`. */
  function CapPositionSize(sizing: Sizing, i: Instrument, maximum: real): Sizing {
    if !sizing.Sized? then sizing
    else if i.lotSize <= 0.0 then SizeRaised("lot size must be positive")
    else if MinimumLots(i).None? then SizeRaised("INVALID_INSTRUMENT_SIZE_RULES")
    else
      var lots := TruncReal(Min(Steps(sizing.lots, i.lotSize), maximum) / i.lotSize);
      if lots < MinimumLots(i).value then SizeRejected("BELOW_MINIMUM_ORDER_SIZE")
      else Sized(lots, true)
  }

  /** Capping keeps exactly the largest number of lots that is in the size and under the maximum. */
  lemma CapOnlyLowers(sizing: Sizing, i: Instrument, maximum: real, other: int)
    requires sizing.Sized? && CapPositionSize(sizing, i, maximum).Sized?
    ensures var lots := CapPositionSize(sizing, i, maximum).lots;
            && 0 < lots && i.minSize <= Steps(lots, i.lotSize)
            && (other <= lots <==> other <= sizing.lots && Steps(other, i.lotSize) <= maximum)
  {
    hide Steps, TruncReal, CeilReal;
    var lots := CapPositionSize(sizing, i, maximum).lots;
    CeilCounts(i.minSize, i.lotSize, lots);
    PositiveSteps(lots, i.lotSize);
    PositiveTrunc(Min(Steps(sizing.lots, i.lotSize), maximum), i.lotSize);
    TruncCounts(Min(Steps(sizing.lots, i.lotSize), maximum), i.lotSize, other);
    StepOrder(other, sizing.lots, i.lotSize);
  }

  // ----- exposure -----

  datatype Balance = Balance(currency: string, equity: real)

  predicate IsStable(currency: string) {
    currency == "USDT" || currency == "USDC" || currency == "USD"
  }

  datatype Wallet = Wallet(total: real, unpriced: set<string>, dust: set<string>)

  /** The value of one balance, or what is said about it when there is no price. */
  function Value(b: Balance, prices: map<string, real>): real {
    if IsStable(b.currency) || b.equity <= 0.0 || b.currency !in prices then 0.0
    else b.equity * prices[b.currency]
  }

  function WalletValue(balances: seq<Balance>, prices: map<string, real>): real {
    if balances == [] then 0.0
    else WalletValue(balances[..|balances| - 1], prices) + Value(balances[|balances| - 1], prices)
  }

  predicate NeedsPrice(b: Balance, prices: map<string, real>) {
    !IsStable(b.currency) && b.equity > 0.0 && b.currency !in prices
  }

  /** `wallet_exposure_usdt`: one pass over the balances. */
  method WalletExposure(balances: seq<Balance>, prices: map<string, real>, dustQuantity: real) returns (w: Wallet)
    ensures w.total == WalletValue(balances, prices)
    ensures forall c :: c in w.unpriced <==>
      exists k :: 0 <= k < |balances| && balances[k].currency == c && NeedsPrice(balances[k], prices) && balances[k].equity > dustQuantity
    ensures forall c :: c in w.dust <==>
      exists k :: 0 <= k < |balances| && balances[k].currency == c && NeedsPrice(balances[k], prices) && balances[k].equity <= dustQuantity
  {
    var total := 0.0;
    var unpriced, dust: set<string> := {}, {};
    for i := 0 to |balances|
      invariant total == WalletValue(balances[..i], prices)
      invariant forall c :: c in unpriced <==>
        exists k :: 0 <= k < i && balances[k].currency == c && NeedsPrice(balances[k], prices) && balances[k].equity > dustQuantity
      invariant forall c :: c in dust <==>
        exists k :: 0 <= k < i && balances[k].currency == c && NeedsPrice(balances[k], prices) && balances[k].equity <= dustQuantity
    {
      var b := balances[i];
      assert balances[..i + 1][..i] == balances[..i];
      if IsStable(b.currency) || b.equity <= 0.0 {
      } else if b.currency !in prices {
        if b.equity <= dustQuantity {
          dust := dust + {b.currency};
        } else {
          unpriced := unpriced + {b.currency};
        }
      } else {
        total := total + b.equity * prices[b.currency];
      }
    }
    assert balances[..|balances|] == balances;
    w := Wallet(total, unpriced, dust);
  }

  /** A balance counts at its price; stable currencies, debts and what has no price count nothing. */
  lemma ValueMeans(b: Balance, prices: map<string, real>)
    ensures IsStable(b.currency) <==> b.currency in {"USDT", "USDC", "USD"}
    ensures NeedsPrice(b, prices) <==> b.currency !in {"USDT", "USDC", "USD"} && b.equity > 0.0 && b.currency !in prices
    ensures Value(b, prices) ==
      if b.equity > 0.0 && b.currency !in {"USDT", "USDC", "USD"} && b.currency in prices
      then prices[b.currency] * b.equity else 0.0
  {
  }

  function Max0(x: real): real {
    if x > 0.0 then x else 0.0
  }

  /** Total exposure against equity; None is the source's infinity for an account without equity. */
  datatype Exposure = Exposure(projected: real, pct: Option<real>, known: bool)

  function BuildExposure(wallet: Wallet, equity: real, reserved: real, proposed: real): Exposure {
    var projected := wallet.total + Max0(reserved) + Max0(proposed);
    Exposure(projected, if equity > 0.0 then Some(projected / equity) else None, wallet.unpriced == {})
  }

  // ----- the risk veto -----

  datatype Rules = Rules(
    environmentValid: bool, staleAfterMs: int, maxSpreadPct: real, minScore: int, minStrength: real,
    maxDailyLossPct: real, maxConsecutiveLosses: int, maxOpenPositions: nat, maxTotalExposurePct: real,
    cooldownMs: int, minRiskReward: real, riskPerTrade: real, maxPositionPct: real,
    maxEntryDeviationPct: real, maxSlippagePct: real, dustQuantity: real)

  datatype Signal = Signal(long: bool, entry: real, stop: Option<real>, target: Option<real>, score: int, strength: real)

  datatype Market = Market(timestamp: int, price: real, bid: real, ask: real, instrument: Instrument)

  datatype Account = Account(equity: real, available: real, balances: seq<Balance>)

  datatype Daily = Daily(realizedPnl: real, consecutiveLosses: int, lastTrade: Option<int>, openPositions: nat)

  function SpreadPct(m: Market): Option<real> {
    var mid := (m.bid + m.ask) / 2.0;
    if mid > 0.0 then Some((m.ask - m.bid) / mid * 100.0) else None
  }

  datatype Decision = Veto(reason: string) | Pass

  /** `RiskManager.evaluate`: the first guard that fails names the veto. */
  function Evaluate(rules: Rules, s: Signal, m: Market, a: Account, d: Daily, duplicate: bool,
                    exposure: Option<Exposure>, now: int): Decision
  {
    if !rules.environmentValid then Veto("ENVIRONMENT_INVALID")
    else if !s.long then Veto("SIGNAL_SIDE")
    else if m.timestamp <= 0 || now - m.timestamp > rules.staleAfterMs then Veto("STALE_DATA")
    else if a.equity <= 0.0 || a.available <= 0.0 then Veto("ACCOUNT_DATA_UNAVAILABLE")
    else if duplicate then Veto("DUPLICATE_ORDER")
    else if s.stop.None? then Veto("MISSING_STOP_LOSS")
    else if s.target.None? then Veto("MISSING_TAKE_PROFIT")
    else if s.entry <= s.stop.value then Veto("INVALID_STOP_LOSS")
    else if SpreadPct(m).None? || SpreadPct(m).value > rules.maxSpreadPct then Veto("SPREAD_TOO_WIDE")
    else if s.score < rules.minScore then Veto("SIGNAL_SCORE_TOO_LOW")
    else if s.strength < rules.minStrength then Veto("SIGNAL_STRENGTH_TOO_LOW")
    else if d.realizedPnl <= -(a.equity * rules.maxDailyLossPct) then Veto("DAILY_KILL_SWITCH_ACTIVE")
    else if d.consecutiveLosses >= rules.maxConsecutiveLosses then Veto("MAX_CONSECUTIVE_LOSSES_REACHED")
    else if d.openPositions >= rules.maxOpenPositions then Veto("MAX_OPEN_POSITIONS_REACHED")
    else if exposure.Some? && !exposure.value.known then Veto("EXPOSURE_UNKNOWN")
    else if exposure.Some? && (exposure.value.pct.None? || exposure.value.pct.value > rules.maxTotalExposurePct)
    then Veto("MAX_TOTAL_EXPOSURE_REACHED")
    else if d.lastTrade.Some? && d.lastTrade.value != 0 && now - d.lastTrade.value < rules.cooldownMs
    then Veto("COOLDOWN_ACTIVE")
    else if (s.target.value - s.entry) / (s.entry - s.stop.value) + 0.000000001 < rules.minRiskReward
    then Veto("RISK_REWARD_BELOW_MINIMUM")
    else Pass
  }

  /** The spread is the distance of the two sides in percent of the price between them. */
  lemma SpreadMeans(m: Market)
    ensures SpreadPct(m).Some? <==> m.bid + m.ask > 0.0
    ensures SpreadPct(m).Some? ==> SpreadPct(m).value * (m.bid + m.ask) == 200.0 * (m.ask - m.bid)
  {
    var mid := (m.bid + m.ask) / 2.0;
    if mid > 0.0 {
      var q := (m.ask - m.bid) / mid;
      assert q * mid == m.ask - m.bid;
      assert SpreadPct(m).value * (m.bid + m.ask) == 200.0 * (q * mid);
    }
  }

  /** The reward for one unit of risk. */
  lemma RewardMeans(entry: real, stop: real, target: real)
    requires stop < entry
    ensures RiskReward(entry, stop, target) * (entry - stop) == target - entry
  {
  }

  // ----- the executable plan -----

  datatype Executable =
    | NotExecutable(reason: string, entry: real)
    | PlanRaised(reason: string)
    | Executable(entry: real, stop: real, target: real, riskReward: real, lots: int, capped: bool)

  /** `build_executable_long_plan`: quantize, veto, size. The entry of a plan that
      was refused before it was priced is 0. */
  function BuildExecutable(s: Signal, m: Market, a: Account, d: Daily, rules: Rules, executableEntry: Option<real>,
                           duplicate: bool, exposure: Option<Exposure>, now: int): Executable
  {
    if !s.long then NotExecutable("SIGNAL_SIDE", 0.0)
    else if s.stop.None? then NotExecutable("MISSING_STOP_LOSS", 0.0)
    else if s.target.None? then NotExecutable("MISSING_TAKE_PROFIT", 0.0)
    else
      var p := QuantizeLong(AskedEntry(m, executableEntry), s.stop.value, s.target.value, m.instrument.tickSize);
      if p.InvalidPrice? then NotExecutable(p.reason, 0.0)
      else
        var risk := Evaluate(rules, AtPrices(s, p), m, a, d, duplicate, exposure, now);
        if risk.Veto? then NotExecutable(risk.reason, p.entry)
        else
          var sizing := CalculatePositionSize(a.equity, a.available, m.instrument, p.entry, p.stop,
                                              rules.riskPerTrade, rules.maxPositionPct);
          match sizing
          case SizeRejected(reason) => NotExecutable(reason, p.entry)
          case SizeRaised(reason) => PlanRaised(reason)
          case Sized(lots, capped) =>
            Executable(p.entry, p.stop, p.target, RiskReward(p.entry, p.stop, p.target), lots, capped)
  }

  function AskedEntry(m: Market, executableEntry: Option<real>): real {
    if executableEntry.Some? then executableEntry.value else m.ask
  }

  function AtPrices(s: Signal, p: Priced): Signal
    requires p.Priced?
  {
    s.(entry := p.entry, stop := Some(p.stop), target := Some(p.target))
  }

  /** On the tick grid, in the right order, and off the asked prices by less than a tick, always to
      the cautious side. */
  ghost predicate CautiousPrices(entry: real, stop: real, target: real, askedEntry: real, askedStop: real,
                                 askedTarget: real, tick: real) {
    && 0.0 < stop < entry < target
    && IsMultiple(entry, tick) && IsMultiple(stop, tick) && IsMultiple(target, tick)
    && askedEntry <= entry < askedEntry + tick
    && askedStop <= stop < askedStop + tick
    && askedTarget - tick < target <= askedTarget
  }

  lemma QuantizedIsCautious(entry: real, stop: real, target: real, tick: real)
    requires QuantizeLong(entry, stop, target, tick).Priced?
    ensures var p := QuantizeLong(entry, stop, target, tick);
            CautiousPrices(p.entry, p.stop, p.target, entry, stop, target, tick)
  {
    hide QuantizeUp, QuantizeDown, IsMultiple;
    QuantizedUp(entry, tick, 0);
    QuantizedUp(stop, tick, 0);
    QuantizedDown(target, tick, 0);
  }

  /** Two multiples of a step that are less than a step apart are the same. */
  lemma SameMultiple(a: real, b: real, step: real)
    requires step > 0.0 && IsMultiple(a, step) && IsMultiple(b, step) && a - step < b < a + step
    ensures a == b
  {
    hide Steps;
    var n: int :| a == Steps(n, step);
    var m: int :| b == Steps(m, step);
    OneStep(n, step);
    OneStep(n - 1, step);
    StepOrder(m, n, step);
    StepOrder(n, m, step);
    StepOrder(n + 1, m, step);
    StepOrder(m, n - 1, step);
  }

  /** Prices are quantized exactly when cautious ones exist, and to those. */
  lemma QuantizedIff(entry: real, stop: real, target: real, tick: real, e: real, s: real, t: real)
    ensures QuantizeLong(entry, stop, target, tick) == Priced(e, s, t) <==>
      && tick > 0.0 && entry > 0.0 && stop > 0.0 && target > 0.0
      && CautiousPrices(e, s, t, entry, stop, target, tick)
  {
    hide QuantizeUp, QuantizeDown, IsMultiple;
    if QuantizeLong(entry, stop, target, tick).Priced? {
      QuantizedIsCautious(entry, stop, target, tick);
    }
    if tick > 0.0 && CautiousPrices(e, s, t, entry, stop, target, tick) {
      QuantizedUp(entry, tick, 0);
      QuantizedUp(stop, tick, 0);
      QuantizedDown(target, tick, 0);
      SameMultiple(e, QuantizeUp(entry, tick), tick);
      SameMultiple(s, QuantizeUp(stop, tick), tick);
      SameMultiple(t, QuantizeDown(target, tick), tick);
    }
  }

  /** A size is approved exactly when some whole number of lots meets the minimum and every budget. */
  lemma SizedIff(equity: real, available: real, i: Instrument, entry: real, stop: real, riskPerTrade: real,
                 maxPositionPct: real)
    requires i.minSize > 0.0
    ensures CalculatePositionSize(equity, available, i, entry, stop, riskPerTrade, maxPositionPct).Sized? <==>
      && equity > 0.0 && available > 0.0 && 0.0 < stop < entry && i.lotSize > 0.0
      && exists lots: int :: i.minSize <= Steps(lots, i.lotSize) &&
           WithinBudget(lots, i.lotSize, equity, available, entry, stop, riskPerTrade, maxPositionPct)
  {
    hide Steps, TruncReal, WithinBudget, RawQuantity;
    var sizing := CalculatePositionSize(equity, available, i, entry, stop, riskPerTrade, maxPositionPct);
    if sizing.Sized? {
      SizeIsLargest(equity, available, i, entry, stop, riskPerTrade, maxPositionPct, sizing.lots);
    }
    if equity > 0.0 && available > 0.0 && 0.0 < stop < entry && i.lotSize > 0.0 {
      var raw := RawQuantity(equity, available, entry, stop, riskPerTrade, maxPositionPct);
      forall lots: int | i.minSize <= Steps(lots, i.lotSize) &&
        WithinBudget(lots, i.lotSize, equity, available, entry, stop, riskPerTrade, maxPositionPct)
        ensures sizing.Sized?
      {
        BudgetIsRaw(lots, i.lotSize, equity, available, entry, stop, riskPerTrade, maxPositionPct);
        TruncCounts(raw, i.lotSize, lots);
        StepOrder(lots, TruncReal(raw / i.lotSize), i.lotSize);
      }
    }
  }

  lemma CrossMultiply(a: real, b: real, x: real, y: real)
    requires x > 0.0 && y > 0.0
    ensures a / x < b / y <==> a * y < b * x
  {
    var p, q := a / x, b / y;
    assert a * y == p * (x * y) by {
      assert a == p * x;
    }
    assert b * x == q * (x * y) by {
      assert b == q * y;
    }
    MulOrder(q, p, x * y);
  }

  /** Why there is no size: no funds, no stop between zero and the entry, no lot size, or too little for the minimum. A size
      counts as capped when position limit and funds allow less than the risk does. */
  lemma SizeRefuses(equity: real, available: real, i: Instrument, entry: real, stop: real, riskPerTrade: real,
                    maxPositionPct: real)
    ensures var z := CalculatePositionSize(equity, available, i, entry, stop, riskPerTrade, maxPositionPct);
      var funded, stopped := equity > 0.0 && available > 0.0, 0.0 < stop < entry;
      && (z == SizeRejected("ACCOUNT_FUNDS_UNAVAILABLE") <==> !funded)
      && (z == SizeRejected("INVALID_STOP_DISTANCE") <==> funded && !stopped)
      && (z.SizeRaised? <==> funded && stopped && i.lotSize <= 0.0)
      && (z.SizeRejected? && funded && stopped ==> z.reason == "BELOW_MINIMUM_ORDER_SIZE")
      && (z.Sized? ==>
            (z.capped <==> Min(equity * maxPositionPct, available) * (entry - stop) < equity * riskPerTrade * entry))
  {
    hide Steps, TruncReal;
    if 0.0 < stop < entry {
      CrossMultiply(Min(equity * maxPositionPct, available), equity * riskPerTrade, entry, entry - stop);
    }
  }

  /** A cap marks what it leaves as capped, and raises without size rules. */
  lemma CapRefuses(sizing: Sizing, i: Instrument, maximum: real)
    ensures var z := CapPositionSize(sizing, i, maximum);
      && (!sizing.Sized? ==> z == sizing)
      && (sizing.Sized? ==>
            && (z.SizeRaised? <==> i.lotSize <= 0.0 || i.minSize <= 0.0)
            && (z.SizeRaised? ==> z.reason == if i.lotSize <= 0.0 then "lot size must be positive" else "INVALID_INSTRUMENT_SIZE_RULES")
            && (z.SizeRejected? ==> z.reason == "BELOW_MINIMUM_ORDER_SIZE") && (z.Sized? ==> z.capped))
  {
    hide Steps, TruncReal, CeilReal;
  }

  /** Prices that are not positive are refused as they are, others when the quantized ones are not in order. */
  lemma QuantizeRefuses(entry: real, stop: real, target: real, tick: real)
    requires QuantizeLong(entry, stop, target, tick).InvalidPrice?
    ensures QuantizeLong(entry, stop, target, tick).reason ==
      if tick > 0.0 && entry > 0.0 && stop > 0.0 && target > 0.0 then "INVALID_QUANTIZED_PROTECTION_PRICES"
      else "INVALID_PRICE_OR_TICK_SIZE"
  {
    hide QuantizeUp, QuantizeDown;
  }

  /** A capped size is approved exactly when some whole number of lots meets the minimum, the size and the cap. */
  lemma CappedIff(sizing: Sizing, i: Instrument, maximum: real)
    requires sizing.Sized? && i.minSize > 0.0
    ensures CapPositionSize(sizing, i, maximum).Sized? <==>
      && i.lotSize > 0.0
      && exists lots: int :: lots <= sizing.lots && i.minSize <= Steps(lots, i.lotSize) <= maximum
  {
    hide Steps, TruncReal, CeilReal;
    var capped := CapPositionSize(sizing, i, maximum);
    if capped.Sized? {
      CapOnlyLowers(sizing, i, maximum, capped.lots);
      assert capped.lots <= sizing.lots && i.minSize <= Steps(capped.lots, i.lotSize) <= maximum;
    }
    if i.lotSize > 0.0 {
      forall lots: int | lots <= sizing.lots && i.minSize <= Steps(lots, i.lotSize) <= maximum ensures capped.Sized? {
        var least := Min(Steps(sizing.lots, i.lotSize), maximum);
        StepOrder(lots, sizing.lots, i.lotSize);
        TruncCounts(least, i.lotSize, lots);
        CeilCounts(i.minSize, i.lotSize, lots);
      }
    }
  }

  /** A signal passes the veto exactly when no guard objects: valid environment and side, fresh data, funds,
      no duplicate, protection below the entry and worth its risk, a narrow spread, enough score and
      strength, no daily loss, losing streak or cooldown, a free slot, and known exposure in its limit. */
  lemma PassMeans(rules: Rules, s: Signal, m: Market, a: Account, d: Daily, duplicate: bool,
                  exposure: Option<Exposure>, now: int)
    ensures Evaluate(rules, s, m, a, d, duplicate, exposure, now).Pass? <==>
      && rules.environmentValid && s.long && !duplicate
      && 0 < m.timestamp && now - m.timestamp <= rules.staleAfterMs
      && a.equity > 0.0 && a.available > 0.0
      && s.stop.Some? && s.target.Some? && s.stop.value < s.entry
      && RiskReward(s.entry, s.stop.value, s.target.value) + 0.000000001 >= rules.minRiskReward
      && SpreadPct(m).Some? && SpreadPct(m).value <= rules.maxSpreadPct
      && s.score >= rules.minScore && s.strength >= rules.minStrength
      && d.realizedPnl > -(a.equity * rules.maxDailyLossPct) && d.consecutiveLosses < rules.maxConsecutiveLosses
      && d.openPositions < rules.maxOpenPositions
      && (d.lastTrade.Some? && d.lastTrade.value != 0 ==> now - d.lastTrade.value >= rules.cooldownMs)
      && (exposure.Some? ==>
            exposure.value.known && exposure.value.pct.Some? && exposure.value.pct.value <= rules.maxTotalExposurePct)
  {
  }

  /** An executable plan has cautious prices, pays at least the minimum reward for its risk, passed
      the position and exposure limits, and has the largest number of lots every budget allows. */
  lemma ExecutableIsSafe(s: Signal, m: Market, a: Account, d: Daily, rules: Rules, executableEntry: Option<real>,
                         duplicate: bool, exposure: Option<Exposure>, now: int, other: int)
    requires m.instrument.minSize > 0.0
    requires BuildExecutable(s, m, a, d, rules, executableEntry, duplicate, exposure, now).Executable?
    ensures
      var x := BuildExecutable(s, m, a, d, rules, executableEntry, duplicate, exposure, now);
      && s.stop.Some? && s.target.Some?
      && CautiousPrices(x.entry, x.stop, x.target, AskedEntry(m, executableEntry), s.stop.value, s.target.value,
                        m.instrument.tickSize)
      && x.riskReward == RiskReward(x.entry, x.stop, x.target)
      && x.riskReward + 0.000000001 >= rules.minRiskReward
      && x.lots > 0 && m.instrument.minSize <= Steps(x.lots, m.instrument.lotSize)
      && !duplicate && d.openPositions < rules.maxOpenPositions
      && (exposure.Some? ==> exposure.value.pct.Some? && exposure.value.pct.value <= rules.maxTotalExposurePct)
      && (other <= x.lots <==>
          WithinBudget(other, m.instrument.lotSize, a.equity, a.available, x.entry, x.stop,
                       rules.riskPerTrade, rules.maxPositionPct))
  {
    hide QuantizeLong, Evaluate, CalculatePositionSize, WithinBudget, IsMultiple, Steps;
    var x := BuildExecutable(s, m, a, d, rules, executableEntry, duplicate, exposure, now);
    var p := QuantizeLong(AskedEntry(m, executableEntry), s.stop.value, s.target.value, m.instrument.tickSize);
    QuantizedIsCautious(AskedEntry(m, executableEntry), s.stop.value, s.target.value, m.instrument.tickSize);
    PassMeans(rules, AtPrices(s, p), m, a, d, duplicate, exposure, now);
    SizeIsLargest(a.equity, a.available, m.instrument, x.entry, x.stop, rules.riskPerTrade, rules.maxPositionPct, other);
  }
}
