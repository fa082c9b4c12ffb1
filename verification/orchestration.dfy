/** The approval of a plan: fresh prices, the risk veto with and without exposure, the size cap, the
    last price checks, and then the submission. */
module Orchestration {
  import opened Wrappers
  import opened OrderStates
  import opened Exchanges
  import opened TradeTables
  import opened Protocol
  import opened ProtocolSteps
  import opened ProtocolRuns
  import opened SliceEffects
  import opened TradeStores
  import opened ManagerRules
  import opened OrderManagers
  import opened PlanSteps
  import opened Pricing

  /** What one approval reads from outside: the fresh signal, the market, the account with the
      prices of its holdings, the day's results, and the optional cap on the quantity. */
  datatype Snapshot = Snapshot(
    signal: Signal, market: Market, account: Account, prices: map<string, real>, daily: Daily, cap: Option<real>)

  /** One call of `approve_plan`. `entries` is the agent's own switch, `agrees` says that the preview
      the caller saw has not changed, and `authorized` that the session or the approval text allows
      the order; the clock gives the time of each check. */
  datatype Request = Request(
    snapshot: Snapshot, plannedEntry: real, entries: bool, agrees: bool, authorized: bool, clock: nat -> int)

  datatype Terms = Terms(entry: real, stop: real, target: real, riskReward: real, lots: int)

  datatype Agreement = PriceMoved | Declined(reason: string) | Raises | Agreed(terms: Terms)

  function OrderValue(lots: int, entry: real, lotSize: real): real {
    Steps(lots, lotSize) * entry
  }

  function Abs(x: real): real {
    if x < 0.0 then -x else x
  }

  /** The distance of the executable price from a reference price, in percent. */
  function Deviation(price: real, reference: real): real
    requires reference != 0.0
  {
    Abs(price - reference) / reference * 100.0
  }

  /** An order is worth its base units at the entry price, and a price deviates by its distance in percent of the
      reference. */
  lemma PricesMean(lots: int, entry: real, lotSize: real, reference: real)
    requires reference != 0.0
    ensures OrderValue(lots, entry, lotSize) == lots as real * lotSize * entry
    ensures Deviation(entry, reference) * reference == 100.0 * (if entry >= reference then entry - reference else reference - entry)
  {
    var q := Abs(entry - reference) / reference;
    assert q * reference == Abs(entry - reference);
    assert Deviation(entry, reference) * reference == 100.0 * (q * reference);
  }

  /** Exactly the lot counts that the budgets and the cap allow. */
  ghost predicate AllowedLots(lots: int, x: Snapshot, rules: Rules, entry: real, stop: real) {
    && WithinBudget(lots, x.market.instrument.lotSize, x.account.equity, x.account.available, entry, stop,
                    rules.riskPerTrade, rules.maxPositionPct)
    && (x.cap.Some? ==> Steps(lots, x.market.instrument.lotSize) <= x.cap.value)
  }

  ghost predicate LargestLots(lots: int, x: Snapshot, rules: Rules, entry: real, stop: real) {
    forall other :: other <= lots <==> AllowedLots(other, x, rules, entry, stop)
  }

  /** What every agreed set of terms satisfies. */
  ghost predicate SafeTerms(t: Terms, x: Snapshot, rules: Rules, slots: nat, reserved: real, plannedEntry: real) {
    && x.signal.stop.Some? && x.signal.target.Some?
    && CautiousPrices(t.entry, t.stop, t.target, x.market.ask, x.signal.stop.value, x.signal.target.value,
                      x.market.instrument.tickSize)
    && t.riskReward == RiskReward(t.entry, t.stop, t.target) && t.riskReward + 0.000000001 >= rules.minRiskReward
    && t.lots > 0 && x.market.instrument.minSize <= Steps(t.lots, x.market.instrument.lotSize)
    && LargestLots(t.lots, x, rules, t.entry, t.stop)
    && slots < rules.maxOpenPositions
    && WalletValue(x.account.balances, x.prices) + reserved + OrderValue(t.lots, t.entry, x.market.instrument.lotSize)
         <= rules.maxTotalExposurePct * x.account.equity
    && plannedEntry > 0.0 && Deviation(t.entry, plannedEntry) <= rules.maxEntryDeviationPct
    && x.market.price != 0.0 && Deviation(t.entry, x.market.price) <= rules.maxSlippagePct
  }

  /** An exposure under the limit covers the wallet, everything reserved and the new order. */
  lemma ExposureBound(w: Wallet, equity: real, reserved: real, proposed: real, limit: real)
    requires var e := BuildExposure(w, equity, reserved, proposed); e.pct.Some? && e.pct.value <= limit
    ensures w.total + reserved + proposed <= limit * equity
  {
    var e := BuildExposure(w, equity, reserved, proposed);
    DivideBound(e.projected, e.projected, equity);
    MulMonotone(e.pct.value, limit, equity);
  }

  function AtTerms(s: Signal, e: Executable): Signal
    requires e.Executable?
  {
    s.(entry := e.entry, stop := Some(e.stop), target := Some(e.target))
  }

  /** Neither the clock nor the exposure changes what an executable plan looks like. */
  lemma SamePlan(x: Snapshot, daily: Daily, rules: Rules, duplicate: bool, exposure: Exposure, now: int, later: int)
    requires BuildExecutable(x.signal, x.market, x.account, daily, rules, None, duplicate, None, now).Executable?
    requires BuildExecutable(x.signal, x.market, x.account, daily, rules, None, duplicate, Some(exposure), later).Executable?
    ensures BuildExecutable(x.signal, x.market, x.account, daily, rules, None, duplicate, Some(exposure), later) ==
            BuildExecutable(x.signal, x.market, x.account, daily, rules, None, duplicate, None, now)
  {
    hide QuantizeLong, Evaluate, CalculatePositionSize;
  }

  /** Exactly the lot counts that every budget allows. */
  ghost predicate LargestWithinBudget(lots: int, x: Snapshot, rules: Rules, entry: real, stop: real) {
    forall other :: other <= lots <==>
      WithinBudget(other, x.market.instrument.lotSize, x.account.equity, x.account.available, entry, stop,
                   rules.riskPerTrade, rules.maxPositionPct)
  }

  lemma ExecutableTerms(x: Snapshot, daily: Daily, rules: Rules, duplicate: bool, exposure: Exposure, now: int)
    requires x.market.instrument.minSize > 0.0
    requires BuildExecutable(x.signal, x.market, x.account, daily, rules, None, duplicate, Some(exposure), now).Executable?
    ensures var e := BuildExecutable(x.signal, x.market, x.account, daily, rules, None, duplicate, Some(exposure), now);
      && x.signal.stop.Some? && x.signal.target.Some?
      && CautiousPrices(e.entry, e.stop, e.target, x.market.ask, x.signal.stop.value, x.signal.target.value,
                        x.market.instrument.tickSize)
      && e.stop < e.entry && e.riskReward == RiskReward(e.entry, e.stop, e.target)
      && e.riskReward + 0.000000001 >= rules.minRiskReward
      && e.lots > 0 && x.market.instrument.minSize <= Steps(e.lots, x.market.instrument.lotSize)
      && LargestWithinBudget(e.lots, x, rules, e.entry, e.stop)
      && !duplicate && daily.openPositions < rules.maxOpenPositions
      && exposure.pct.Some? && exposure.pct.value <= rules.maxTotalExposurePct
  {
    hide BuildExecutable, WithinBudget, Steps;
    var e := BuildExecutable(x.signal, x.market, x.account, daily, rules, None, duplicate, Some(exposure), now);
    forall other: int
      ensures other <= e.lots <==>
        WithinBudget(other, x.market.instrument.lotSize, x.account.equity, x.account.available, e.entry, e.stop,
                     rules.riskPerTrade, rules.maxPositionPct)
    {
      ExecutableIsSafe(x.signal, x.market, x.account, daily, rules, None, duplicate, Some(exposure), now, other);
    }
    ExecutableIsSafe(x.signal, x.market, x.account, daily, rules, None, duplicate, Some(exposure), now, 0);
  }

  lemma UncappedLots(x: Snapshot, rules: Rules, entry: real, stop: real, lots: int)
    requires x.cap.None? && LargestWithinBudget(lots, x, rules, entry, stop)
    ensures LargestLots(lots, x, rules, entry, stop)
  {
    hide WithinBudget, Steps;
  }

  lemma CappedLots(x: Snapshot, rules: Rules, e: Executable, capped: Sizing)
    requires x.cap.Some? && e.Executable? && LargestWithinBudget(e.lots, x, rules, e.entry, e.stop)
    requires capped == CapPositionSize(Sized(e.lots, e.capped), x.market.instrument, x.cap.value) && capped.Sized?
    ensures LargestLots(capped.lots, x, rules, e.entry, e.stop)
    ensures capped.lots > 0 && x.market.instrument.minSize <= Steps(capped.lots, x.market.instrument.lotSize)
  {
    hide WithinBudget, Steps, CapPositionSize;
    forall other: int ensures other <= capped.lots <==> AllowedLots(other, x, rules, e.entry, e.stop) {
      CapOnlyLowers(Sized(e.lots, e.capped), x.market.instrument, x.cap.value, other);
    }
    CapOnlyLowers(Sized(e.lots, e.capped), x.market.instrument, x.cap.value, 0);
  }

  /** The fresh prices can be quantized; otherwise the plan is refused before it has a price. */
  function FreshPrices(x: Snapshot): Option<Priced> {
    if !x.signal.long || x.signal.stop.None? || x.signal.target.None? then None
    else
      var p := QuantizeLong(x.market.ask, x.signal.stop.value, x.signal.target.value, x.market.instrument.tickSize);
      if p.Priced? then Some(p) else None
  }

  /** The price that the deviation check looks at: zero for a plan without a price. */
  lemma PreliminaryEntry(x: Snapshot, daily: Daily, rules: Rules, duplicate: bool, now: int)
    ensures var e := BuildExecutable(x.signal, x.market, x.account, daily, rules, None, duplicate, None, now);
      && (FreshPrices(x).None? ==> e.NotExecutable? && e.entry == 0.0)
      && (FreshPrices(x).Some? && !e.PlanRaised? ==> FreshPrices(x).value.Priced? && e.entry == FreshPrices(x).value.entry)
  {
    hide QuantizeLong, Evaluate, CalculatePositionSize;
  }

  lemma PlanEntry(x: Snapshot, rules: Rules, slots: nat, duplicate: bool, now: int)
    ensures var e := PlanAt(x, rules, slots, duplicate, None, now);
      && (FreshPrices(x).None? ==> e.NotExecutable? && e.entry == 0.0)
      && (FreshPrices(x).Some? && !e.PlanRaised? ==> FreshPrices(x).value.Priced? && e.entry == FreshPrices(x).value.entry)
  {
    hide BuildExecutable, FreshPrices;
    PreliminaryEntry(x, x.daily.(openPositions := slots), rules, duplicate, now);
  }

  /** Zero is a hundred percent away from any price. */
  lemma ZeroDeviates(reference: real)
    requires reference > 0.0
    ensures Deviation(0.0, reference) == 100.0
  {
    assert reference / reference == 1.0;
  }

  /** The guards that look at the signal, the market, the account and the day. */
  ghost predicate Guards(x: Snapshot, rules: Rules, slots: nat, duplicate: bool, now: int) {
    && rules.environmentValid && x.signal.long && !duplicate
    && 0 < x.market.timestamp && now - x.market.timestamp <= rules.staleAfterMs
    && x.account.equity > 0.0 && x.account.available > 0.0
    && SpreadPct(x.market).Some? && SpreadPct(x.market).value <= rules.maxSpreadPct
    && x.signal.score >= rules.minScore && x.signal.strength >= rules.minStrength
    && x.daily.realizedPnl > -(x.account.equity * rules.maxDailyLossPct)
    && x.daily.consecutiveLosses < rules.maxConsecutiveLosses
    && slots < rules.maxOpenPositions
    && (x.daily.lastTrade.Some? && x.daily.lastTrade.value != 0 ==> now - x.daily.lastTrade.value >= rules.cooldownMs)
  }

  ghost predicate WithinExposure(exposure: Option<Exposure>, rules: Rules) {
    exposure.Some? ==>
      exposure.value.known && exposure.value.pct.Some? && exposure.value.pct.value <= rules.maxTotalExposurePct
  }

  /** The prices and the uncapped size of a plan that would be executable. */
  ghost predicate PlanFits(entry: real, stop: real, target: real, whole: int, x: Snapshot, rules: Rules) {
    && x.signal.stop.Some? && x.signal.target.Some?
    && x.market.ask > 0.0 && x.signal.stop.value > 0.0 && x.signal.target.value > 0.0
    && CautiousPrices(entry, stop, target, x.market.ask, x.signal.stop.value, x.signal.target.value,
                      x.market.instrument.tickSize)
    && RiskReward(entry, stop, target) + 0.000000001 >= rules.minRiskReward
    && LargestWithinBudget(whole, x, rules, entry, stop)
    && x.market.instrument.lotSize > 0.0
    && x.market.instrument.minSize <= Steps(whole, x.market.instrument.lotSize)
  }

  /** A plan is executable exactly when the guards let it pass and prices and a size for it exist. */
  lemma ExecutableIff(x: Snapshot, rules: Rules, slots: nat, duplicate: bool, exposure: Option<Exposure>, now: int,
                      entry: real, stop: real, target: real, whole: int)
    requires x.market.instrument.minSize > 0.0
    ensures var e := BuildExecutable(x.signal, x.market, x.account, x.daily.(openPositions := slots), rules, None, duplicate,
                                     exposure, now);
      (e.Executable? && e.entry == entry && e.stop == stop && e.target == target && e.lots == whole) <==>
        Guards(x, rules, slots, duplicate, now) && WithinExposure(exposure, rules) && PlanFits(entry, stop, target, whole, x, rules)
  {
    hide WithinBudget, Steps, RiskReward, Evaluate, CalculatePositionSize, CautiousPrices, QuantizeLong, SpreadPct;
    var i := x.market.instrument;
    if x.signal.stop.Some? && x.signal.target.Some? {
      QuantizedIff(x.market.ask, x.signal.stop.value, x.signal.target.value, i.tickSize, entry, stop, target);
      Ordered(entry, stop, target, x.market.ask, x.signal.stop.value, x.signal.target.value, i.tickSize);
      var s := x.signal.(entry := entry, stop := Some(stop), target := Some(target));
      PassMeans(rules, s, x.market, x.account, x.daily.(openPositions := slots), duplicate, exposure, now);
      if stop < entry {
        SizeIs(x, rules, entry, stop, whole);
      }
    }
  }

  lemma Ordered(entry: real, stop: real, target: real, askedEntry: real, askedStop: real, askedTarget: real, tick: real)
    ensures CautiousPrices(entry, stop, target, askedEntry, askedStop, askedTarget, tick) ==> 0.0 < stop < entry && tick > 0.0
  {
    hide IsMultiple;
  }

  /** With funds and ordered prices the size is the largest that the budgets allow, if that meets the minimum. */
  lemma SizeIs(x: Snapshot, rules: Rules, entry: real, stop: real, whole: int)
    requires x.market.instrument.minSize > 0.0
    ensures var i := x.market.instrument;
      var sizing := CalculatePositionSize(x.account.equity, x.account.available, i, entry, stop, rules.riskPerTrade, rules.maxPositionPct);
      (sizing.Sized? && sizing.lots == whole ==>
         LargestWithinBudget(whole, x, rules, entry, stop) && i.lotSize > 0.0 && i.minSize <= Steps(whole, i.lotSize)) &&
      (x.account.equity > 0.0 && x.account.available > 0.0 && 0.0 < stop < entry && i.lotSize > 0.0 &&
       LargestWithinBudget(whole, x, rules, entry, stop) && i.minSize <= Steps(whole, i.lotSize) ==>
         sizing.Sized? && sizing.lots == whole)
  {
    hide WithinBudget, Steps, CalculatePositionSize;
    var i := x.market.instrument;
    var sizing := CalculatePositionSize(x.account.equity, x.account.available, i, entry, stop, rules.riskPerTrade, rules.maxPositionPct);
    SizedIff(x.account.equity, x.account.available, i, entry, stop, rules.riskPerTrade, rules.maxPositionPct);
    if sizing.Sized? {
      forall other: int
        ensures other <= sizing.lots <==> WithinBudget(other, i.lotSize, x.account.equity, x.account.available, entry, stop,
                                                       rules.riskPerTrade, rules.maxPositionPct)
      {
        SizeIsLargest(x.account.equity, x.account.available, i, entry, stop, rules.riskPerTrade, rules.maxPositionPct, other);
      }
      SizeIsLargest(x.account.equity, x.account.available, i, entry, stop, rules.riskPerTrade, rules.maxPositionPct, 0);
      if LargestWithinBudget(whole, x, rules, entry, stop) {
        assert WithinBudget(whole, i.lotSize, x.account.equity, x.account.available, entry, stop, rules.riskPerTrade,
                            rules.maxPositionPct);
        assert WithinBudget(sizing.lots, i.lotSize, x.account.equity, x.account.available, entry, stop, rules.riskPerTrade,
                            rules.maxPositionPct);
      }
    } else if LargestWithinBudget(whole, x, rules, entry, stop) {
      assert WithinBudget(whole, i.lotSize, x.account.equity, x.account.available, entry, stop, rules.riskPerTrade,
                          rules.maxPositionPct);
    }
  }

  /** Every holding has a price, or is dust. */
  ghost predicate HoldingsKnown(x: Snapshot, rules: Rules) {
    forall k :: 0 <= k < |x.account.balances| && NeedsPrice(x.account.balances[k], x.prices) ==>
      x.account.balances[k].equity <= rules.dustQuantity
  }

  /** The wallet sums up the priced holdings, and names those without a price that are not dust. */
  ghost predicate IsWallet(w: Wallet, x: Snapshot, rules: Rules) {
    && w.total == WalletValue(x.account.balances, x.prices)
    && forall c :: c in w.unpriced <==> IsUnpriced(x, rules, c)
  }

  ghost predicate IsUnpriced(x: Snapshot, rules: Rules, currency: string) {
    exists k :: 0 <= k < |x.account.balances| && x.account.balances[k].currency == currency
      && NeedsPrice(x.account.balances[k], x.prices) && x.account.balances[k].equity > rules.dustQuantity
  }

  /** The wallet, what is reserved and an order of `lots` together stay within the exposure limit. */
  ghost predicate WithinTotal(x: Snapshot, rules: Rules, reserved: real, lots: int, entry: real) {
    WalletValue(x.account.balances, x.prices) + reserved + OrderValue(lots, entry, x.market.instrument.lotSize) <=
      rules.maxTotalExposurePct * x.account.equity
  }

  lemma WalletIs(w: Wallet, x: Snapshot, rules: Rules)
    requires w.total == WalletValue(x.account.balances, x.prices)
    requires forall c :: c in w.unpriced <==>
      (exists k :: 0 <= k < |x.account.balances| && x.account.balances[k].currency == c &&
                   NeedsPrice(x.account.balances[k], x.prices) && x.account.balances[k].equity > rules.dustQuantity)
    ensures IsWallet(w, x, rules)
  {
    hide WalletValue, NeedsPrice;
  }

  /** The exposure check of a positive order passes exactly when every holding is known and the total is within the
      limit. */
  lemma ExposureIff(x: Snapshot, rules: Rules, w: Wallet, reserved: real, lots: int, entry: real)
    requires x.account.equity > 0.0 && OrderValue(lots, entry, x.market.instrument.lotSize) >= 0.0
    requires IsWallet(w, x, rules)
    ensures WithinExposure(Some(BuildExposure(w, x.account.equity, reserved,
                                              OrderValue(lots, entry, x.market.instrument.lotSize))), rules) <==>
      HoldingsKnown(x, rules) && WithinTotal(x, rules, if reserved > 0.0 then reserved else 0.0, lots, entry)
  {
    hide WalletValue, OrderValue, NeedsPrice;
    var e := BuildExposure(w, x.account.equity, reserved, OrderValue(lots, entry, x.market.instrument.lotSize));
    DivideBound(e.projected, e.projected, x.account.equity);
    MulOrder(e.projected / x.account.equity, rules.maxTotalExposurePct, x.account.equity);
    assert e.projected / x.account.equity * x.account.equity == e.projected;
    assert w.unpriced == {} <==> HoldingsKnown(x, rules) by {
      if HoldingsKnown(x, rules) {
        assert forall c :: !IsUnpriced(x, rules, c);
      }
      if w.unpriced == {} {
        forall k | 0 <= k < |x.account.balances| && NeedsPrice(x.account.balances[k], x.prices)
          ensures x.account.balances[k].equity <= rules.dustQuantity
        {
          assert !IsUnpriced(x, rules, x.account.balances[k].currency);
        }
      }
    }
  }

  /** The terms that `approve_plan` has to agree to: an executable plan at the planned price, whose `whole` size and whose
      capped one stay within the exposure limit; the guards hold at every check. */
  ghost predicate Agreeable(x: Snapshot, rules: Rules, slots: nat, duplicate: bool, reserved: real, plannedEntry: real,
                            clock: nat -> int, t: Terms, whole: int)
  {
    var counted := if reserved > 0.0 then reserved else 0.0;
    && Guards(x, rules, slots, duplicate, clock(1)) && Guards(x, rules, slots, duplicate, clock(2))
    && PlanFits(t.entry, t.stop, t.target, whole, x, rules) && t.stop < t.entry
    && t.riskReward == RiskReward(t.entry, t.stop, t.target)
    && plannedEntry > 0.0 && Deviation(t.entry, plannedEntry) <= rules.maxEntryDeviationPct
    && HoldingsKnown(x, rules) && WithinTotal(x, rules, counted, whole, t.entry)
    && (x.cap.None? ==> t.lots == whole)
    && (x.cap.Some? ==>
          && LargestLots(t.lots, x, rules, t.entry, t.stop)
          && x.market.instrument.minSize <= Steps(t.lots, x.market.instrument.lotSize)
          && Guards(x, rules, slots, duplicate, clock(3)) && WithinTotal(x, rules, counted, t.lots, t.entry))
    && x.market.price != 0.0 && Deviation(t.entry, x.market.price) <= rules.maxSlippagePct
  }

  lemma PositiveOrder(x: Snapshot, rules: Rules, lots: int, entry: real)
    requires x.market.instrument.minSize > 0.0 && x.market.instrument.lotSize > 0.0 && entry > 0.0
    requires x.market.instrument.minSize <= Steps(lots, x.market.instrument.lotSize)
    ensures lots > 0 && OrderValue(lots, entry, x.market.instrument.lotSize) >= 0.0
  {
    PositiveSteps(lots, x.market.instrument.lotSize);
    MulMonotone(0.0, Steps(lots, x.market.instrument.lotSize), entry);
  }

  lemma AgreeableIsSafe(x: Snapshot, rules: Rules, slots: nat, duplicate: bool, reserved: real, plannedEntry: real,
                        clock: nat -> int, t: Terms, whole: int)
    requires x.market.instrument.minSize > 0.0
    requires Agreeable(x, rules, slots, duplicate, reserved, plannedEntry, clock, t, whole)
    ensures !duplicate && SafeTerms(t, x, rules, slots, reserved, plannedEntry)
  {
    hide WithinBudget, Steps, RiskReward, Deviation, OrderValue, WalletValue, LargestLots, LargestWithinBudget, CautiousPrices;
    Ordered(t.entry, t.stop, t.target, x.market.ask, x.signal.stop.value, x.signal.target.value, x.market.instrument.tickSize);
    PositiveOrder(x, rules, t.lots, t.entry);
    if x.cap.None? {
      UncappedLots(x, rules, t.entry, t.stop, whole);
    }
  }

  /** A cap leaves the largest size that it and the budgets allow, if that meets the minimum. */
  lemma CapIs(x: Snapshot, rules: Rules, entry: real, stop: real, whole: int, uncapped: bool, lots: int)
    requires x.market.instrument.minSize > 0.0 && x.market.instrument.lotSize > 0.0 && x.cap.Some?
    requires LargestWithinBudget(whole, x, rules, entry, stop)
    ensures var capped := CapPositionSize(Sized(whole, uncapped), x.market.instrument, x.cap.value);
      (capped.Sized? && capped.lots == lots) <==>
        LargestLots(lots, x, rules, entry, stop) && x.market.instrument.minSize <= Steps(lots, x.market.instrument.lotSize)
  {
    hide WithinBudget, Steps, CapPositionSize;
    var i, sizing := x.market.instrument, Sized(whole, uncapped);
    var capped := CapPositionSize(sizing, i, x.cap.value);
    CappedIff(sizing, i, x.cap.value);
    if capped.Sized? {
      forall other: int ensures other <= capped.lots <==> AllowedLots(other, x, rules, entry, stop) {
        CapOnlyLowers(sizing, i, x.cap.value, other);
      }
      CapOnlyLowers(sizing, i, x.cap.value, 0);
      if LargestLots(lots, x, rules, entry, stop) {
        assert AllowedLots(lots, x, rules, entry, stop) && AllowedLots(capped.lots, x, rules, entry, stop);
      }
    } else if LargestLots(lots, x, rules, entry, stop) {
      assert AllowedLots(lots, x, rules, entry, stop);
    }
  }

  /** The plan of the fresh signal at one of the checks. */
  function PlanAt(x: Snapshot, rules: Rules, slots: nat, duplicate: bool, exposure: Option<Exposure>, now: int): Executable {
    BuildExecutable(x.signal, x.market, x.account, x.daily.(openPositions := slots), rules, None, duplicate, exposure, now)
  }

  lemma PlanFound(x: Snapshot, rules: Rules, slots: nat, duplicate: bool, reserved: real, plannedEntry: real,
                  clock: nat -> int, t: Terms, whole: int)
    requires x.market.instrument.minSize > 0.0
    ensures Agreeable(x, rules, slots, duplicate, reserved, plannedEntry, clock, t, whole) ==>
      var e := PlanAt(x, rules, slots, duplicate, None, clock(1));
      && e.Executable? && e.entry == t.entry && e.stop == t.stop && e.target == t.target && e.lots == whole
      && plannedEntry > 0.0 && Deviation(t.entry, plannedEntry) <= rules.maxEntryDeviationPct
  {
    hide BuildExecutable, PlanFits, Guards, HoldingsKnown, WithinTotal, LargestLots, Deviation, RiskReward, Steps;
    ExecutableIff(x, rules, slots, duplicate, None, clock(1), t.entry, t.stop, t.target, whole);
  }

  lemma PlanMeans(x: Snapshot, rules: Rules, slots: nat, duplicate: bool, exposure: Option<Exposure>, now: int)
    requires x.market.instrument.minSize > 0.0
    ensures var e := PlanAt(x, rules, slots, duplicate, exposure, now);
      e.Executable? ==>
        && Guards(x, rules, slots, duplicate, now) && WithinExposure(exposure, rules)
        && PlanFits(e.entry, e.stop, e.target, e.lots, x, rules)
        && e.stop < e.entry && e.riskReward == RiskReward(e.entry, e.stop, e.target) && x.account.equity > 0.0
        && x.market.instrument.lotSize > 0.0 && OrderValue(e.lots, e.entry, x.market.instrument.lotSize) >= 0.0
  {
    hide BuildExecutable, LargestWithinBudget, RiskReward, OrderValue, Steps, CautiousPrices;
    var e := PlanAt(x, rules, slots, duplicate, exposure, now);
    if e.Executable? {
      ExecutableIff(x, rules, slots, duplicate, exposure, now, e.entry, e.stop, e.target, e.lots);
      Ordered(e.entry, e.stop, e.target, x.market.ask, x.signal.stop.value, x.signal.target.value, x.market.instrument.tickSize);
      PositiveOrder(x, rules, e.lots, e.entry);
      PlanRewards(x, rules, slots, duplicate, exposure, now);
    }
  }

  lemma PlanRewards(x: Snapshot, rules: Rules, slots: nat, duplicate: bool, exposure: Option<Exposure>, now: int)
    ensures var e := PlanAt(x, rules, slots, duplicate, exposure, now);
      e.Executable? ==> e.stop < e.entry && e.riskReward == RiskReward(e.entry, e.stop, e.target)
  {
    hide QuantizeUp, QuantizeDown, Evaluate, CalculatePositionSize;
  }

  /** The second look at a plan: the same plan, if the guards still hold and the exposure is within its limit. */
  lemma FinalIs(x: Snapshot, rules: Rules, slots: nat, duplicate: bool, exposure: Exposure, now: int, later: int)
    requires x.market.instrument.minSize > 0.0 && PlanAt(x, rules, slots, duplicate, None, now).Executable?
    ensures var final := PlanAt(x, rules, slots, duplicate, Some(exposure), later);
      && (final.Executable? <==> Guards(x, rules, slots, duplicate, later) && WithinExposure(Some(exposure), rules))
      && (final.Executable? ==> final == PlanAt(x, rules, slots, duplicate, None, now))
  {
    hide BuildExecutable, Guards, PlanFits, WithinExposure, RiskReward, OrderValue;
    var e := PlanAt(x, rules, slots, duplicate, None, now);
    PlanMeans(x, rules, slots, duplicate, None, now);
    ExecutableIff(x, rules, slots, duplicate, Some(exposure), later, e.entry, e.stop, e.target, e.lots);
    var final := PlanAt(x, rules, slots, duplicate, Some(exposure), later);
    if final.Executable? {
      PlanMeans(x, rules, slots, duplicate, Some(exposure), later);
      SamePlan(x, x.daily.(openPositions := slots), rules, duplicate, exposure, now, later);
    }
  }

  /** The veto on the capped order. */
  lemma VetoIs(x: Snapshot, rules: Rules, slots: nat, duplicate: bool, e: Executable, exposure: Exposure, now: int)
    requires e.Executable? && PlanFits(e.entry, e.stop, e.target, e.lots, x, rules)
    ensures Evaluate(rules, AtTerms(x.signal, e), x.market, x.account, x.daily.(openPositions := slots), duplicate, Some(exposure),
                     now).Pass? <==>
      Guards(x, rules, slots, duplicate, now) && WithinExposure(Some(exposure), rules)
  {
    hide Evaluate, LargestWithinBudget, RiskReward, Steps, SpreadPct, IsMultiple;
    PassMeans(rules, AtTerms(x.signal, e), x.market, x.account, x.daily.(openPositions := slots), duplicate, Some(exposure), now);
  }

  /** The checks of `approve_plan` between reading the market and showing the preview: terms are agreed exactly when
      there are terms to agree to. */
  method AgreeTerms(x: Snapshot, rules: Rules, slots: nat, duplicate: bool, reserved: real, plannedEntry: real,
                    clock: nat -> int)
    returns (v: Agreement)
    requires x.market.instrument.minSize > 0.0
    ensures v.Agreed? <==> exists t, whole :: Agreeable(x, rules, slots, duplicate, reserved, plannedEntry, clock, t, whole)
    ensures v.Agreed? ==>
      exists whole :: Agreeable(x, rules, slots, duplicate, reserved, plannedEntry, clock, v.terms, whole)
    ensures v.Agreed? ==> !duplicate && SafeTerms(v.terms, x, rules, slots, reserved, plannedEntry)
    ensures FreshPrices(x).None? ==> (v.PriceMoved? <==> plannedEntry <= 0.0 || rules.maxEntryDeviationPct < 100.0)
    ensures FreshPrices(x).None? ==> v.PriceMoved? || v.Declined?
    ensures FreshPrices(x).Some? && !v.Raises? ==>
      (v.PriceMoved? <==>
        plannedEntry <= 0.0 || Deviation(FreshPrices(x).value.entry, plannedEntry) > rules.maxEntryDeviationPct)
  {
    hide *;
    ghost var t0, whole0 :|
      (exists t, whole :: Agreeable(x, rules, slots, duplicate, reserved, plannedEntry, clock, t, whole)) ==>
        Agreeable(x, rules, slots, duplicate, reserved, plannedEntry, clock, t0, whole0);
    var preliminary := PlanAt(x, rules, slots, duplicate, None, clock(1));
    PlanEntry(x, rules, slots, duplicate, clock(1));
    PlanFound(x, rules, slots, duplicate, reserved, plannedEntry, clock, t0, whole0);
    if preliminary.PlanRaised? {
      return Raises;
    }
    if plannedEntry > 0.0 {
      ZeroDeviates(plannedEntry);
    }
    if plannedEntry <= 0.0 || Deviation(preliminary.entry, plannedEntry) > rules.maxEntryDeviationPct {
      return PriceMoved;
    }
    if preliminary.NotExecutable? {
      return Declined(preliminary.reason);
    }
    var wallet := WalletExposure(x.account.balances, x.prices, rules.dustQuantity);
    assert IsWallet(wallet, x, rules) by {
      WalletIs(wallet, x, rules);
    }
    v := SettleTerms(x, rules, slots, duplicate, reserved, plannedEntry, clock, preliminary, wallet, t0, whole0);
    if v.Agreed? {
      ghost var whole :| Agreeable(x, rules, slots, duplicate, reserved, plannedEntry, clock, v.terms, whole);
      AgreeableIsSafe(x, rules, slots, duplicate, reserved, plannedEntry, clock, v.terms, whole);
    }
  }

  /** The checks of an executable plan at the planned price: the exposure of its whole size, the cap, the exposure of the
      capped size, and the price the market shows. */
  method SettleTerms(x: Snapshot, rules: Rules, slots: nat, duplicate: bool, reserved: real, plannedEntry: real,
                     clock: nat -> int, preliminary: Executable, wallet: Wallet, ghost t0: Terms, ghost whole0: int)
    returns (v: Agreement)
    requires x.market.instrument.minSize > 0.0
    requires preliminary == PlanAt(x, rules, slots, duplicate, None, clock(1)) && preliminary.Executable?
    requires plannedEntry > 0.0 && Deviation(preliminary.entry, plannedEntry) <= rules.maxEntryDeviationPct
    requires IsWallet(wallet, x, rules)
    ensures v.Agreed? ==>
      exists whole :: Agreeable(x, rules, slots, duplicate, reserved, plannedEntry, clock, v.terms, whole)
    ensures Agreeable(x, rules, slots, duplicate, reserved, plannedEntry, clock, t0, whole0) ==> v.Agreed?
    ensures !v.PriceMoved?
  {
    hide BuildExecutable, PlanAt, Evaluate, CapPositionSize, WithinBudget, LargestLots, Deviation, OrderValue, BuildExposure,
         WalletValue, Steps, RiskReward, Guards, PlanFits, HoldingsKnown, WithinTotal, WithinExposure, NeedsPrice;
    var lotSize := x.market.instrument.lotSize;
    PlanMeans(x, rules, slots, duplicate, None, clock(1));
    PlanFound(x, rules, slots, duplicate, reserved, plannedEntry, clock, t0, whole0);
    var exposure := BuildExposure(wallet, x.account.equity, reserved, OrderValue(preliminary.lots, preliminary.entry, lotSize));
    ExposureIff(x, rules, wallet, reserved, preliminary.lots, preliminary.entry);
    FinalIs(x, rules, slots, duplicate, exposure, clock(1), clock(2));
    var final := PlanAt(x, rules, slots, duplicate, Some(exposure), clock(2));
    if final.NotExecutable? {
      return Declined(final.reason);
    }
    if final.PlanRaised? {
      return Raises;
    }
    var lots := final.lots;
    if x.cap.Some? {
      v := CapTerms(x, rules, slots, duplicate, reserved, clock, final, wallet, t0.lots);
      if !v.Agreed? {
        CapDiffers(x, rules, slots, duplicate, reserved, plannedEntry, clock, t0, whole0, final);
        return;
      }
      lots := v.terms.lots;
    }
    if x.market.price == 0.0 {
      return Raises;
    }
    if Deviation(final.entry, x.market.price) > rules.maxSlippagePct {
      return Declined("PRE_SUBMIT_SLIPPAGE_TOO_HIGH");
    }
    v := Agreed(Terms(final.entry, final.stop, final.target, final.riskReward, lots));
    assert Agreeable(x, rules, slots, duplicate, reserved, plannedEntry, clock, v.terms, final.lots);
  }

  /** When there are terms to agree to, their lots are what the cap leaves, and they pass the veto. */
  lemma CapDiffers(x: Snapshot, rules: Rules, slots: nat, duplicate: bool, reserved: real, plannedEntry: real,
                   clock: nat -> int, t: Terms, whole: int, e: Executable)
    requires x.cap.Some? && e.Executable?
    ensures Agreeable(x, rules, slots, duplicate, reserved, plannedEntry, clock, t, whole) && t.entry == e.entry && t.stop == e.stop ==>
      CapFits(x, rules, slots, duplicate, reserved, clock, e, t.lots)
  {
    hide Guards, WithinTotal, LargestLots, PlanFits, HoldingsKnown, Deviation, RiskReward, Steps;
  }

  /** The capped size is the largest there is, meets the minimum, and passes the veto. */
  ghost predicate CapFits(x: Snapshot, rules: Rules, slots: nat, duplicate: bool, reserved: real, clock: nat -> int,
                          e: Executable, lots: int)
    requires e.Executable?
  {
    && LargestLots(lots, x, rules, e.entry, e.stop)
    && x.market.instrument.minSize <= Steps(lots, x.market.instrument.lotSize)
    && Guards(x, rules, slots, duplicate, clock(3))
    && WithinTotal(x, rules, if reserved > 0.0 then reserved else 0.0, lots, e.entry)
  }

  /** The cap of the configuration, and the veto on what it leaves. */
  method CapTerms(x: Snapshot, rules: Rules, slots: nat, duplicate: bool, reserved: real, clock: nat -> int, final: Executable,
                  wallet: Wallet, ghost lots0: int)
    returns (v: Agreement)
    requires x.market.instrument.minSize > 0.0 && x.market.instrument.lotSize > 0.0 && x.cap.Some? && x.account.equity > 0.0
    requires final.Executable? && final.stop < final.entry && PlanFits(final.entry, final.stop, final.target, final.lots, x, rules)
    requires HoldingsKnown(x, rules)
    requires IsWallet(wallet, x, rules)
    ensures v.Agreed? ==> CapFits(x, rules, slots, duplicate, reserved, clock, final, v.terms.lots)
    ensures CapFits(x, rules, slots, duplicate, reserved, clock, final, lots0) ==> v.Agreed?
    ensures !v.PriceMoved?
  {
    hide Evaluate, CapPositionSize, WithinBudget, LargestLots, LargestWithinBudget, OrderValue, BuildExposure, WalletValue, Steps,
         RiskReward, Guards, HoldingsKnown, WithinTotal, WithinExposure, NeedsPrice, CautiousPrices;
    var lotSize := x.market.instrument.lotSize;
    CapIs(x, rules, final.entry, final.stop, final.lots, final.capped, lots0);
    var capped := CapPositionSize(Sized(final.lots, final.capped), x.market.instrument, x.cap.value);
    match capped {
      case SizeRejected(reason) =>
        v := Declined(reason);
      case SizeRaised(_) =>
        v := Raises;
      case Sized(smaller, _) =>
        CapIs(x, rules, final.entry, final.stop, final.lots, final.capped, smaller);
        Ordered(final.entry, final.stop, final.target, x.market.ask, x.signal.stop.value, x.signal.target.value,
                x.market.instrument.tickSize);
        PositiveOrder(x, rules, smaller, final.entry);
        var exposure := BuildExposure(wallet, x.account.equity, reserved, OrderValue(smaller, final.entry, lotSize));
        ExposureIff(x, rules, wallet, reserved, smaller, final.entry);
        VetoIs(x, rules, slots, duplicate, final, exposure, clock(3));
        var risk := Evaluate(rules, AtTerms(x.signal, final), x.market, x.account, x.daily.(openPositions := slots), duplicate,
                             Some(exposure), clock(3));
        v := if risk.Veto? then Declined(risk.reason)
             else Agreed(Terms(final.entry, final.stop, final.target, final.riskReward, smaller));
    }
  }

  /** The fresh signal has no stop and the ask is exactly the planned entry: the answer is that the price
      moved too far. */
  method PriceMovedWithoutAPrice(clock: nat -> int) returns (x: Snapshot, v: Agreement)
    ensures x.signal.stop.None? && x.market.ask == 100.0
    ensures v.PriceMoved?
  {
    var rules := Rules(true, 60_000, 1.0, 0, 0.0, 0.05, 3, 3, 1.0, 0, 1.0, 0.01, 0.5, 0.5, 0.5, 0.0);
    x := Snapshot(Signal(true, 100.0, None, Some(110.0), 80, 1.0),
                  Market(1, 100.0, 100.0, 100.0, Instrument(1.0, 1.0, 0.1)),
                  Account(1000.0, 1000.0, []), map[], Daily(0.0, 0, None, 0), None);
    v := AgreeTerms(x, rules, 0, false, 0.0, 100.0, clock);
  }

  datatype Approval =
    | Refused(reason: string)
    | ApprovalRaised
    | RePreview
    | AwaitingApproval
    | Placed(terms: Terms, result: SubmitResult)

  /** What a placed order did: exactly this entry was sent, for the agreed lots, out of a plan that
      was still pending; slots and total exposure stay within their limits. */
  ghost predicate PlacedSafely(terms: Terms, request: Request, rules: Rules, p: PlanId, t: Tables, t': Tables,
                               sent: seq<OrderRef>, sent': seq<OrderRef>)
  {
    var x := request.snapshot;
    && request.entries && request.agrees && request.authorized
    && p in t.plans && t.plans[p].status.Planned? && request.clock(0) < t.plans[p].expiresAt
    && SafeTerms(terms, x, rules, |SlotPlans(t)|, ReservedNotional(t.orders), request.plannedEntry)
    && sent' == sent + [Entry(p)]
    && p in t'.orders && t'.orders[p].requested == terms.lots
    && |SlotPlans(t')| <= rules.maxOpenPositions
    && WalletValue(x.account.balances, x.prices) + ReservedNotional(t'.orders) <= rules.maxTotalExposurePct * x.account.equity
  }

  /** A plan that is open for approval: entries are on, it is pending and in time. */
  ghost predicate IsOpen(request: Request, t: Tables, p: PlanId) {
    request.entries && p in t.plans && t.plans[p].status.Planned? && request.clock(0) < t.plans[p].expiresAt
  }

  /** There are terms that an approval of the open plan has to agree to. */
  ghost predicate HasTerms(request: Request, rules: Rules, t: Tables, p: PlanId) {
    exists terms, whole :: Agreeable(request.snapshot, rules, |SlotPlans(t)|, p in t.orders, ReservedNotional(t.orders),
                                     request.plannedEntry, request.clock, terms, whole)
  }

  /** `approve_plan`: an order is placed exactly when the plan is open, there are terms to agree to, and the caller
      agrees and is authorized. Every other outcome sends nothing: a plan that expired or whose terms fail is
      rejected, and nothing else changes. */
  method ApprovePlan(manager: OrderManager, p: PlanId, request: Request, rules: Rules) returns (r: Approval)
    requires manager.Good() && request.snapshot.market.instrument.minSize > 0.0
    modifies manager, manager.store, manager.exchange
    ensures manager.Good() && old(manager.run) <= manager.run && Endures(old(manager.store.View()), manager.store.View())
    ensures !r.Placed? ==>
      && manager.exchange.sent == old(manager.exchange.sent)
      && (manager.store.View() == old(manager.store.View()) ||
          manager.store.View() == RejectPlan(old(manager.store.View()), p))
    ensures r.Placed? ==>
      PlacedSafely(r.terms, request, rules, p, old(manager.store.View()), manager.store.View(),
                   old(manager.exchange.sent), manager.exchange.sent)
    ensures r.Placed? ==>
      OrderBecame(r.terms, request, p, manager.store.orders, r.result, old(manager.exchange.replies), manager.exchange.replies,
                   old(manager.exchange.lookups), manager.exchange.lookups)
    ensures var t := old(manager.store.View());
      && (r.Placed? <==> IsOpen(request, t, p) && HasTerms(request, rules, t, p) && request.agrees && request.authorized)
      && (r.RePreview? <==> IsOpen(request, t, p) && HasTerms(request, rules, t, p) && !request.agrees)
      && (r.AwaitingApproval? <==>
            IsOpen(request, t, p) && HasTerms(request, rules, t, p) && request.agrees && !request.authorized)
      && (r.RePreview? || r.AwaitingApproval? || r.ApprovalRaised? ==> manager.store.View() == t)
    ensures var t := old(manager.store.View());
      && (!request.entries ==> r == Refused("TRADING_STOPPED"))
      && (request.entries && p !in t.plans ==> r == Refused("PLAN_NOT_FOUND"))
      && (request.entries && p in t.plans && !t.plans[p].status.Planned? ==> r == Refused("PLAN_NOT_PENDING"))
      && (request.entries && p in t.plans && t.plans[p].status.Planned? && t.plans[p].expiresAt <= request.clock(0) ==>
            r == Refused("PLAN_EXPIRED"))
      && (r.Refused? ==>
            manager.store.View() ==
              if request.entries && p in t.plans && t.plans[p].status.Planned? then RejectPlan(t, p) else t)
    ensures old(|SlotPlans(manager.store.View())|) <= rules.maxOpenPositions ==>
      |SlotPlans(manager.store.View())| <= rules.maxOpenPositions
  {
    hide Inv, Forward, Advances, Endures, SafeTerms, SlotPlans, WalletValue, ReservedNotional, PlacedSafely, Agreeable,
         OrderManager.Good, RejectPlan;
    var store, x := manager.store, request.snapshot;
    ghost var t0 := store.View();
    NoChange(t0);
    if !request.entries {
      return Refused("TRADING_STOPPED");
    }
    if p !in store.plans {
      return Refused("PLAN_NOT_FOUND");
    }
    if !store.plans[p].status.Planned? {
      return Refused("PLAN_NOT_PENDING");
    }
    if request.clock(0) >= store.plans[p].expiresAt {
      Decline(manager, p);
      return Refused("PLAN_EXPIRED");
    }
    if !x.signal.long {
      NoTerms(request, rules, t0, p);
      Decline(manager, p);
      return Refused("SIGNAL_NO_LONGER_VALID");
    }
    var slots := store.PositionSlotsInUse();
    var reserved := store.ReservedEntryNotional();
    var agreement := AgreeTerms(x, rules, slots, p in store.orders, reserved, request.plannedEntry, request.clock);
    if agreement.Raises? {
      return ApprovalRaised;
    }
    if agreement.PriceMoved? {
      Decline(manager, p);
      return Refused("PRICE_MOVED_TOO_FAR");
    }
    if agreement.Declined? {
      Decline(manager, p);
      return Refused(agreement.reason);
    }
    if !request.agrees {
      return RePreview;
    }
    if !request.authorized {
      return AwaitingApproval;
    }
    r := Place(manager, p, request, rules, agreement.terms);
  }

  lemma NoTerms(request: Request, rules: Rules, t: Tables, p: PlanId)
    requires !request.snapshot.signal.long
    ensures !HasTerms(request, rules, t, p)
  {
    hide PlanFits, HoldingsKnown, WithinTotal, Deviation, LargestLots, RiskReward;
  }

  /** The executor was asked once, for the agreed lots at the agreed price of a lot, and the order became what it said. */
  ghost predicate OrderBecame(terms: Terms, request: Request, p: PlanId, orders: map<PlanId, OrderRow>, result: SubmitResult,
                              replies: seq<(OrderRef, SubmitReply)>, replies': seq<(OrderRef, SubmitReply)>,
                              lookups: seq<Asked>, lookups': seq<Asked>)
  {
    terms.lots >= 0 && LotValue(terms, request) >= 0.0 &&
    SubmittedFor(p, terms.lots, LotValue(terms, request), orders, result, replies, replies', lookups, lookups')
  }

  /** What one lot of the order costs at the agreed entry price. */
  ghost function LotValue(terms: Terms, request: Request): real {
    terms.entry * request.snapshot.market.instrument.lotSize
  }

  /** The submission of a plan under terms that were just agreed. */
  method Place(manager: OrderManager, p: PlanId, request: Request, rules: Rules, terms: Terms) returns (r: Approval)
    requires manager.Good() && request.snapshot.market.instrument.minSize > 0.0
    requires request.entries && request.agrees && request.authorized
    requires p in manager.store.plans && manager.store.plans[p].status.Planned? && p !in manager.store.orders
    requires request.clock(0) < manager.store.plans[p].expiresAt
    requires SafeTerms(terms, request.snapshot, rules, |SlotPlans(manager.store.View())|,
                       ReservedNotional(manager.store.orders), request.plannedEntry)
    modifies manager, manager.store, manager.exchange
    ensures manager.Good() && old(manager.run) <= manager.run && Endures(old(manager.store.View()), manager.store.View())
    ensures r.Placed? && r.terms == terms
    ensures PlacedSafely(terms, request, rules, p, old(manager.store.View()), manager.store.View(),
                         old(manager.exchange.sent), manager.exchange.sent)
    ensures OrderBecame(terms, request, p, manager.store.orders, r.result, old(manager.exchange.replies), manager.exchange.replies,
                         old(manager.exchange.lookups), manager.exchange.lookups)
    ensures |SlotPlans(manager.store.View())| <= rules.maxOpenPositions
  {
    hide SubmittedFor;
    hide Inv, Forward, Advances, Endures, SafeTerms, SlotPlans, WalletValue, ReservedNotional;
    var x := request.snapshot;
    ghost var t0 := manager.store.View();
    LotPrice(terms, x, rules, |SlotPlans(t0)|, ReservedNotional(t0.orders), request.plannedEntry);
    var lotNotional := terms.entry * x.market.instrument.lotSize;
    assert lotNotional == LotValue(terms, request);
    var result := manager.Submit(p, terms.lots, lotNotional);
    SlotsAfterApproval(SlotPlans(t0), SlotPlans(manager.store.View()), p);
    r := Placed(terms, result);
  }

  /** `reject_plan` with a reason. */
  method Decline(manager: OrderManager, p: PlanId)
    requires manager.Good()
    modifies manager, manager.store
    ensures manager.Good() && old(manager.run) <= manager.run && Endures(old(manager.store.View()), manager.store.View())
    ensures manager.store.View() == RejectPlan(old(manager.store.View()), p)
    ensures SlotPlans(manager.store.View()) == SlotPlans(old(manager.store.View()))
  {
    ghost var t0 := manager.store.View();
    RejectPlanSafely(manager, p);
    AdvancesEndures(t0, manager.store.View());
  }

  /** The agreed order is worth its lots at the price of one lot. */
  lemma LotPrice(terms: Terms, x: Snapshot, rules: Rules, slots: nat, reserved: real, plannedEntry: real)
    requires x.market.instrument.minSize > 0.0
    requires SafeTerms(terms, x, rules, slots, reserved, plannedEntry)
    ensures terms.lots > 0 && terms.entry * x.market.instrument.lotSize >= 0.0
    ensures WalletValue(x.account.balances, x.prices) + reserved
              + terms.lots as real * (terms.entry * x.market.instrument.lotSize) <= rules.maxTotalExposurePct * x.account.equity
    ensures slots < rules.maxOpenPositions
  {
    hide LargestLots, WalletValue, Deviation, IsMultiple;
    var lot := x.market.instrument.lotSize;
    assert lot > 0.0 by {
      if lot <= 0.0 {
        MulMonotone(lot, 0.0, terms.lots as real);
      }
    }
    MulMonotone(0.0, terms.entry, lot);
    assert OrderValue(terms.lots, terms.entry, lot) == terms.lots as real * (terms.entry * lot);
  }
}
