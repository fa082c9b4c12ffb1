/** The backtest simulator: it walks the one-minute bars, sees only closed bars, enters at the open of
    the next bar and exits at the first bar that touches the stop or the target. */
module Backtests {
  import opened Wrappers
  import opened Candles
  import opened Pricing

  const ONE_MINUTE := 60_000
  const THREE_MINUTES := 180_000
  const FIVE_MINUTES := 300_000
  const DAY_MS := 86_400_000

  /** Bars that every timeframe must show before the strategy is asked. */
  const WARMUP_BARS := 50

  datatype History = History(one: seq<Candle>, three: seq<Candle>, five: seq<Candle>)

  /** What the strategy sees at the close of a bar. */
  datatype Sight = Sight(market: Market, one: seq<Candle>, three: seq<Candle>, five: seq<Candle>)

  /** The strategy is any function of what it sees. */
  datatype Setup = Setup(
    strategy: Sight -> Signal, rules: Rules, instrument: Instrument,
    initialEquity: real, feePct: real, spreadPct: real, slippagePct: real)

  function Signalled(x: Setup, sight: Sight): Signal {
    x.strategy(sight)
  }

  datatype Outcome = StopExit | TargetExit | TimeExit

  datatype Trade = Trade(entryTime: int, exitTime: int, entry: real, exit: real, size: real, pnl: real, fees: real,
                         slippageCost: real, outcome: Outcome)

  datatype Sim = Sim(
    index: nat, equity: real, dailyPnl: real, losses: nat, lastTrade: Option<int>, day: Option<int>,
    trades: seq<Trade>, skipped: map<string, nat>, raised: bool)

  /** The bars of a higher timeframe that have closed by `time`, in their order. */
  function Closed(bars: seq<Candle>, interval: int, time: int): seq<Candle> {
    if bars == [] then []
    else
      var rest := Closed(bars[..|bars| - 1], interval, time);
      if bars[|bars| - 1].timestamp + interval <= time then rest + [bars[|bars| - 1]] else rest
  }

  function CloseTime(c: Candle): int {
    c.timestamp + ONE_MINUTE
  }

  /** The bars ascend by at least their length. */
  predicate Spaced(one: seq<Candle>) {
    forall i, j :: 0 <= i < j < |one| ==> CloseTime(one[i]) <= one[j].timestamp
  }

  // ----- one decision -----

  datatype Move = Wait | Skip(reason: string) | Fail | Enter(reference: real, entry: real, plan: Executable)

  const NO_EXPOSURE := Exposure(0.0, Some(0.0), true)

  function HalfSpread(x: Setup): real {
    x.spreadPct / 2.0
  }

  function AccountOf(s: Sim): Account {
    Account(s.equity, s.equity, [Balance("USDT", s.equity)])
  }

  function DailyOf(s: Sim): Daily {
    Daily(s.dailyPnl, s.losses, s.lastTrade, 0)
  }

  /** A new day resets the daily result and the loss streak. */
  function Rollover(s: Sim, closeTime: int): (r: Sim)
    ensures r.index == s.index && r.trades == s.trades && r.equity == s.equity && r.raised == s.raised
  {
    if s.day == Some(closeTime / DAY_MS) then s
    else s.(day := Some(closeTime / DAY_MS), dailyPnl := 0.0, losses := 0)
  }

  /** The market that a signal sees at the close of a bar. */
  function CloseMarket(bar: Candle, x: Setup): Market {
    var half := HalfSpread(x);
    Market(CloseTime(bar), bar.close, bar.close * (1.0 - half), bar.close * (1.0 + half), x.instrument)
  }

  /** What an entry at the open of a bar starts from, and what it pays. */
  function OpenReference(next: Candle, x: Setup): real {
    next.open * (1.0 + HalfSpread(x))
  }

  function PaidAtOpen(next: Candle, x: Setup): real {
    OpenReference(next, x) * (1.0 + x.slippagePct)
  }

  function OpenMarket(next: Candle, x: Setup): Market {
    Market(next.timestamp, next.open, next.open * (1.0 - HalfSpread(x)), PaidAtOpen(next, x), x.instrument)
  }

  /** The simulated markets keep the whole spread around the price, and an entry pays half of it and the slippage on
      top of the open. */
  lemma MarketsMean(bar: Candle, x: Setup)
    ensures var m := CloseMarket(bar, x);
      && m.timestamp == bar.timestamp + 60_000 && m.price == bar.close && m.instrument == x.instrument
      && m.ask - m.price == m.price - m.bid == bar.close * x.spreadPct / 2.0
    ensures var m := OpenMarket(bar, x);
      && m.timestamp == bar.timestamp && m.price == bar.open && m.instrument == x.instrument
      && m.price - m.bid == OpenReference(bar, x) - m.price == bar.open * x.spreadPct / 2.0
      && m.ask == PaidAtOpen(bar, x) == OpenReference(bar, x) + OpenReference(bar, x) * x.slippagePct
  {
  }

  /** Decide on the close of bar `index`, priced at the open of the next. */
  function Decide(h: History, x: Setup, s: Sim): (m: Move)
    requires s.index + 1 < |h.one|
    ensures m.Enter? ==> m.plan.Executable?
  {
    var time := CloseTime(h.one[s.index]);
    DecideOn(h.one[..s.index + 1], h.one[s.index + 1], Closed(h.three, THREE_MINUTES, time),
             Closed(h.five, FIVE_MINUTES, time), x, s)
  }

  /** The decision on the bars that are visible at the close of the last of them. */
  function DecideOn(one: seq<Candle>, next: Candle, three: seq<Candle>, five: seq<Candle>, x: Setup, s: Sim): (m: Move)
    requires one != []
    ensures m.Enter? ==> m.plan.Executable?
  {
    var bar := one[|one| - 1];
    if |three| < WARMUP_BARS || |five| < WARMUP_BARS then Wait
    else
      var market := CloseMarket(bar, x);
      var signal := Signalled(x, Sight(market, one, three, five));
      var risk := Evaluate(x.rules, signal, market, AccountOf(s), DailyOf(s), false, Some(NO_EXPOSURE), CloseTime(bar));
      if risk.Veto? || signal.stop.None? || signal.target.None? then Wait
      else
        var reference := OpenReference(next, x);
        var entry := PaidAtOpen(next, x);
        var plan := BuildExecutable(signal, OpenMarket(next, x), AccountOf(s), DailyOf(s), x.rules, Some(entry), false,
                                    Some(NO_EXPOSURE), next.timestamp);
        match plan
        case NotExecutable(reason, _) => Skip(reason)
        case PlanRaised(_) => Fail
        case Executable(_, _, _, _, _, _) => Enter(reference, entry, plan)
  }

  /** The signal of what has closed passes the veto: both higher timeframes show their warm-up, and it has a stop and a
      target. The account holds the equity and nothing else. */
  ghost predicate SignalPasses(one: seq<Candle>, three: seq<Candle>, five: seq<Candle>, x: Setup, s: Sim)
    requires one != []
  {
    var market := CloseMarket(one[|one| - 1], x);
    var signal := Signalled(x, Sight(market, one, three, five));
    && |three| >= 50 && |five| >= 50 && signal.stop.Some? && signal.target.Some?
    && Evaluate(x.rules, signal, market, Account(s.equity, s.equity, [Balance("USDT", s.equity)]),
                Daily(s.dailyPnl, s.losses, s.lastTrade, 0), false, Some(Exposure(0.0, Some(0.0), true)), one[|one| - 1].timestamp + 60_000).Pass?
  }

  /** The plan of that signal at the open of the next bar. */
  ghost function PlanAtOpen(one: seq<Candle>, next: Candle, three: seq<Candle>, five: seq<Candle>, x: Setup, s: Sim): Executable
    requires one != []
  {
    BuildExecutable(Signalled(x, Sight(CloseMarket(one[|one| - 1], x), one, three, five)), OpenMarket(next, x),
                    Account(s.equity, s.equity, [Balance("USDT", s.equity)]),
                    Daily(s.dailyPnl, s.losses, s.lastTrade, 0), x.rules, Some(PaidAtOpen(next, x)), false,
                    Some(Exposure(0.0, Some(0.0), true)), next.timestamp)
  }

  /** An order is entered exactly when the signal passes at the close and its plan is executable at the next open. */
  lemma EntersWhen(one: seq<Candle>, next: Candle, three: seq<Candle>, five: seq<Candle>, x: Setup, s: Sim)
    requires one != []
    ensures var m, plan := DecideOn(one, next, three, five, x, s), PlanAtOpen(one, next, three, five, x, s);
      && (m.Enter? <==> SignalPasses(one, three, five, x, s) && plan.Executable?)
      && (m.Enter? ==> m.reference == OpenReference(next, x) && m.entry == PaidAtOpen(next, x) && m.plan == plan)
      && (m.Skip? <==> SignalPasses(one, three, five, x, s) && plan.NotExecutable?)
      && (m.Skip? ==> m.reason == plan.reason)
      && (m.Fail? <==> SignalPasses(one, three, five, x, s) && plan.PlanRaised?)
  {
    hide Evaluate, BuildExecutable, Signalled, CloseMarket, OpenMarket, OpenReference, PaidAtOpen;
  }

  /** The decision of bar `index` sees the bars up to it, and of the higher timeframes exactly those that ended by its close;
      it is priced at the next bar. */
  lemma DecidesOnClosed(h: History, x: Setup, s: Sim) returns (three: seq<Candle>, five: seq<Candle>)
    requires s.index + 1 < |h.one|
    ensures Decide(h, x, s) == DecideOn(h.one[..s.index + 1], h.one[s.index + 1], three, five, x, s)
    ensures forall c :: c in three <==> c in h.three && c.timestamp + 180_000 <= h.one[s.index].timestamp + 60_000
    ensures forall c :: c in five <==> c in h.five && c.timestamp + 300_000 <= h.one[s.index].timestamp + 60_000
  {
    hide DecideOn, Closed;
    var time := CloseTime(h.one[s.index]);
    ClosedMeans(h.three, THREE_MINUTES, time);
    ClosedMeans(h.five, FIVE_MINUTES, time);
    three, five := Closed(h.three, THREE_MINUTES, time), Closed(h.five, FIVE_MINUTES, time);
  }

  /** What has closed is exactly what ended by then. */
  lemma {:induction false} ClosedMeans(bars: seq<Candle>, interval: int, time: int)
    ensures forall c :: c in Closed(bars, interval, time) <==> c in bars && c.timestamp + interval <= time
    decreases |bars|
  {
    if bars != [] {
      var last := bars[|bars| - 1];
      ClosedMeans(bars[..|bars| - 1], interval, time);
      assert bars == bars[..|bars| - 1] + [last];
    }
  }

  /** Of bars in the order of time it is the first ones, in that order. */
  lemma {:induction false} ClosedIsFirst(bars: seq<Candle>, interval: int, time: int)
    requires forall i, j :: 0 <= i < j < |bars| ==> bars[i].timestamp <= bars[j].timestamp
    ensures Closed(bars, interval, time) <= bars
    ensures forall i :: 0 <= i < |bars| ==> (i < |Closed(bars, interval, time)| <==> bars[i].timestamp + interval <= time)
    decreases |bars|
  {
    if bars != [] {
      var rest := bars[..|bars| - 1];
      ClosedIsFirst(rest, interval, time);
      assert forall i :: 0 <= i < |rest| ==> rest[i] == bars[i];
    }
  }

  // ----- the exit -----

  predicate Touches(c: Candle, stop: real, target: real) {
    c.low <= stop || c.high >= target
  }

  /** The first bar from `i` on that touches the stop or the target; the length when there is none. */
  function FirstTouch(one: seq<Candle>, i: nat, stop: real, target: real): (k: nat)
    requires i <= |one|
    ensures i <= k <= |one|
    ensures forall j :: i <= j < k ==> !Touches(one[j], stop, target)
    ensures k < |one| ==> Touches(one[k], stop, target)
    decreases |one| - i
  {
    if i == |one| || Touches(one[i], stop, target) then i else FirstTouch(one, i + 1, stop, target)
  }

  /** The books of one trade: both sides pay spread, slippage and fees. */
  function TradeAt(h: History, x: Setup, index: nat, m: Move, outcome: Outcome, touched: real, exitIndex: nat): Trade
    requires m.Enter? && m.plan.Executable? && index + 1 < |h.one| && exitIndex < |h.one|
  {
    var reference := touched * (1.0 - HalfSpread(x));
    var exit := reference * (1.0 - x.slippagePct);
    var size := Steps(m.plan.lots, x.instrument.lotSize);
    var fees := (m.entry + exit) * size * x.feePct;
    Trade(h.one[index + 1].timestamp, CloseTime(h.one[exitIndex]), m.entry, exit, size, (exit - m.entry) * size - fees, fees,
          (m.entry - m.reference + (reference - exit)) * size, outcome)
  }

  /** The price that the exit of a trade starts from. */
  ghost function TouchedPrice(h: History, m: Move, outcome: Outcome): real
    requires m.Enter? && m.plan.Executable? && h.one != []
  {
    match outcome
    case StopExit => m.plan.stop
    case TargetExit => m.plan.target
    case TimeExit => h.one[|h.one| - 1].close
  }

  /** What the books of a trade have to say. It buys `size` at the entry price and sells it at the touched price
      less half the spread and less the slippage; a fee is paid on the value of each side; and the result is
      what the sale leaves after its fee, less what the purchase cost with its fee. */
  ghost predicate BooksBalance(h: History, x: Setup, index: nat, m: Move, t: Trade, exitIndex: nat)
    requires m.Enter? && m.plan.Executable? && index + 1 < |h.one| && exitIndex < |h.one|
  {
    var touched := TouchedPrice(h, m, t.outcome);
    var paid, earned := t.entry * t.size, t.exit * t.size;
    && t.entryTime == h.one[index + 1].timestamp && t.exitTime == h.one[exitIndex].timestamp + 60_000
    && t.entry == m.entry && t.size == m.plan.lots as real * x.instrument.lotSize
    && t.exit == touched * (1.0 - x.spreadPct / 2.0) * (1.0 - x.slippagePct)
    && t.fees == x.feePct * paid + x.feePct * earned
    && t.pnl == (earned - x.feePct * earned) - (paid + x.feePct * paid)
    && t.slippageCost == (m.entry - m.reference) * t.size + (touched * (1.0 - x.spreadPct / 2.0) - t.exit) * t.size
  }

  lemma BooksOf(h: History, x: Setup, index: nat, m: Move, outcome: Outcome, touched: real, exitIndex: nat)
    requires m.Enter? && m.plan.Executable? && index + 1 < |h.one| && exitIndex < |h.one|
    requires touched == TouchedPrice(h, m, outcome)
    ensures BooksBalance(h, x, index, m, TradeAt(h, x, index, m, outcome, touched, exitIndex), exitIndex)
  {
    var t := TradeAt(h, x, index, m, outcome, touched, exitIndex);
    var fee, paid, earned := x.feePct, t.entry * t.size, t.exit * t.size;
    assert (t.entry + t.exit) * t.size * fee == fee * paid + fee * earned by {
      assert (t.entry + t.exit) * t.size == paid + earned;
    }
    assert (t.exit - t.entry) * t.size == earned - paid;
    var halved := touched * (1.0 - x.spreadPct / 2.0);
    assert (m.entry - m.reference + (halved - t.exit)) * t.size == (m.entry - m.reference) * t.size + (halved - t.exit) * t.size;
  }

  /** The books of every trade balance. */
  lemma TradeBooks(h: History, x: Setup, index: nat, m: Move)
    requires m.Enter? && m.plan.Executable? && index + 1 < |h.one|
    ensures BooksBalance(h, x, index, m, TradeOf(h, x, index, m).0, TradeOf(h, x, index, m).1)
  {
    hide TradeAt, BooksBalance;
    var k := FirstTouch(h.one, index + 1, m.plan.stop, m.plan.target);
    BooksOf(h, x, index, m, TimeExit, h.one[|h.one| - 1].close, |h.one| - 1);
    if k < |h.one| {
      BooksOf(h, x, index, m, StopExit, m.plan.stop, k);
      BooksOf(h, x, index, m, TargetExit, m.plan.target, k);
    }
  }

  ghost function Product(a: real, b: real): real {
    a * b
  }

  /** The books of a trade in products. */
  lemma BooksInProducts(h: History, x: Setup, index: nat, m: Move, t: Trade, exitIndex: nat)
    requires m.Enter? && m.plan.Executable? && index + 1 < |h.one| && exitIndex < |h.one|
    requires BooksBalance(h, x, index, m, t, exitIndex)
    ensures var touched := TouchedPrice(h, m, t.outcome);
      var halved, paid, earned := Product(touched, 1.0 - x.spreadPct / 2.0), Product(t.entry, t.size), Product(t.exit, t.size);
      && t.entry == m.entry && t.size == Product(m.plan.lots as real, x.instrument.lotSize)
      && t.exit == Product(halved, 1.0 - x.slippagePct)
      && t.fees == Product(x.feePct, paid) + Product(x.feePct, earned)
      && t.pnl == (earned - Product(x.feePct, earned)) - (paid + Product(x.feePct, paid))
      && t.slippageCost == Product(t.entry - m.reference, t.size) + Product(halved - t.exit, t.size)
  {
    hide TouchedPrice;
  }

  /** Costs only cost: a trade never earns more than the way from the price it was decided at to the price that was
      touched. */
  lemma CostsOnlyCost(h: History, x: Setup, index: nat, m: Move, t: Trade, exitIndex: nat)
    requires m.Enter? && m.plan.Executable? && index + 1 < |h.one| && exitIndex < |h.one|
    requires BooksBalance(h, x, index, m, t, exitIndex)
    requires x.feePct >= 0.0 && 0.0 <= x.spreadPct <= 2.0 && 0.0 <= x.slippagePct <= 1.0
    requires x.instrument.lotSize >= 0.0 && m.plan.lots >= 0
    requires m.reference >= 0.0 && m.entry == m.reference * (1.0 + x.slippagePct)
    requires TouchedPrice(h, m, t.outcome) >= 0.0
    ensures t.pnl <= (TouchedPrice(h, m, t.outcome) - m.reference) * t.size
    ensures t.fees >= 0.0 && t.slippageCost >= 0.0
  {
    hide BooksBalance, TouchedPrice, Product;
    BooksInProducts(h, x, index, m, t, exitIndex);
    EntryAbove(m.reference, x.slippagePct);
    NotNegative(m.plan.lots as real, x.instrument.lotSize);
    var touched := TouchedPrice(h, m, t.outcome);
    ShareLowers(touched, x.spreadPct / 2.0);
    var halved := Product(touched, 1.0 - x.spreadPct / 2.0);
    ShareLowers(halved, x.slippagePct);
    NotNegative(t.entry, t.size);
    NotNegative(t.exit, t.size);
    NotNegative(x.feePct, Product(t.entry, t.size));
    NotNegative(x.feePct, Product(t.exit, t.size));
    WayCosts(m.reference, t.entry, t.exit, halved, touched, t.size);
  }

  lemma EntryAbove(reference: real, share: real)
    requires reference >= 0.0 && share >= 0.0
    ensures reference * (1.0 + share) >= reference
  {
    NotNegative(reference, share);
  }

  lemma NotNegative(a: real, b: real)
    requires a >= 0.0 && b >= 0.0
    ensures Product(a, b) >= 0.0
  {
  }

  /** Taking off a share of a price leaves no more than the price, and no less than nothing. */
  lemma ShareLowers(price: real, share: real)
    requires price >= 0.0 && 0.0 <= share <= 1.0
    ensures 0.0 <= Product(price, 1.0 - share) <= price
  {
    NotNegative(price, share);
    NotNegative(price, 1.0 - share);
    assert price * (1.0 - share) == price - price * share;
  }

  lemma WayCosts(reference: real, entry: real, exit: real, halved: real, touched: real, size: real)
    requires reference <= entry && exit <= halved <= touched && size >= 0.0
    ensures Product(exit, size) - Product(entry, size) <= (touched - reference) * size
    ensures Product(entry - reference, size) + Product(halved - exit, size) >= 0.0
  {
    NotNegative(touched - exit, size);
    NotNegative(entry - reference, size);
    NotNegative(halved - exit, size);
    assert (touched - reference) * size == (touched - exit) * size + (entry - reference) * size + (exit * size - entry * size);
  }

  /** A decided trade: with costs that are shares and prices that are not negative, what a turn earns is at most the way
      from the reference price at the next open to the touched price. */
  lemma TurnEarnsNoMore(h: History, x: Setup, s: Sim)
    requires s.index + 1 < |h.one| && Decide(h, x, s).Enter?
    requires x.feePct >= 0.0 && 0.0 <= x.spreadPct <= 2.0 && 0.0 <= x.slippagePct <= 1.0
    requires x.instrument.minSize > 0.0 && x.instrument.lotSize >= 0.0
    requires h.one[s.index + 1].open >= 0.0 && h.one[|h.one| - 1].close >= 0.0
    ensures var m := Decide(h, x, s);
      var t := TradeOf(h, x, s.index, m).0;
      && m.reference == OpenReference(h.one[s.index + 1], x)
      && t.pnl <= (TouchedPrice(h, m, t.outcome) - m.reference) * t.size
      && t.fees >= 0.0 && t.slippageCost >= 0.0
  {
    hide TradeOf, TradeAt, BooksBalance, Decide;
    var m := Decide(h, x, s);
    EntryPositive(h, x, s);
    var (t, exitIndex) := TradeOf(h, x, s.index, m);
    TradeShape(h, x, s.index, m);
    TradeBooks(h, x, s.index, m);
    CostsOnlyCost(h, x, s.index, m, t, exitIndex);
  }

  lemma EntryPositive(h: History, x: Setup, s: Sim)
    requires s.index + 1 < |h.one| && Decide(h, x, s).Enter? && x.instrument.minSize > 0.0
    requires h.one[s.index + 1].open >= 0.0 && x.spreadPct >= 0.0
    ensures var m := Decide(h, x, s);
      && m.reference == OpenReference(h.one[s.index + 1], x) >= 0.0
      && m.entry == m.reference * (1.0 + x.slippagePct)
      && m.plan.lots > 0 && 0.0 < m.plan.stop < m.plan.target
  {
    hide Closed, Evaluate, BuildExecutable, DecideOn, CautiousPrices, WithinBudget, CloseMarket;
    var time, next := CloseTime(h.one[s.index]), h.one[s.index + 1];
    var one, three, five := h.one[..s.index + 1], Closed(h.three, THREE_MINUTES, time), Closed(h.five, FIVE_MINUTES, time);
    EntersWhen(one, next, three, five, x, s);
    NotNegative(next.open, 1.0 + x.spreadPct / 2.0);
    PlanIsPositive(one, next, three, five, x, s);
  }

  lemma PlanIsPositive(one: seq<Candle>, next: Candle, three: seq<Candle>, five: seq<Candle>, x: Setup, s: Sim)
    requires one != [] && x.instrument.minSize > 0.0 && PlanAtOpen(one, next, three, five, x, s).Executable?
    ensures var plan := PlanAtOpen(one, next, three, five, x, s);
      plan.lots > 0 && 0.0 < plan.stop < plan.target
  {
    hide BuildExecutable, WithinBudget, IsMultiple, CloseMarket;
    ExecutableIsSafe(Signalled(x, Sight(CloseMarket(one[|one| - 1], x), one, three, five)), OpenMarket(next, x),
                     Account(s.equity, s.equity, [Balance("USDT", s.equity)]),
                     Daily(s.dailyPnl, s.losses, s.lastTrade, 0), x.rules, Some(PaidAtOpen(next, x)), false,
                     Some(Exposure(0.0, Some(0.0), true)), next.timestamp, 0);
  }

  /** The trade of an entry at `index + 1`. A bar that touches both exits at the stop. */
  function TradeOf(h: History, x: Setup, index: nat, m: Move): (Trade, nat)
    requires m.Enter? && m.plan.Executable? && index + 1 < |h.one|
  {
    var k := FirstTouch(h.one, index + 1, m.plan.stop, m.plan.target);
    if k == |h.one| then (TradeAt(h, x, index, m, TimeExit, h.one[|h.one| - 1].close, |h.one| - 1), |h.one| - 1)
    else if h.one[k].low <= m.plan.stop then (TradeAt(h, x, index, m, StopExit, m.plan.stop, k), k)
    else (TradeAt(h, x, index, m, TargetExit, m.plan.target, k), k)
  }

  function Count(skipped: map<string, nat>, reason: string): map<string, nat> {
    skipped[reason := 1 + if reason in skipped then skipped[reason] else 0]
  }

  lemma CountMeans(skipped: map<string, nat>, reason: string)
    ensures reason in Count(skipped, reason) && skipped.Keys <= Count(skipped, reason).Keys <= skipped.Keys + {reason}
    ensures forall r :: r in skipped ==> Count(skipped, reason)[r] == skipped[r] + if r == reason then 1 else 0
    ensures reason !in skipped ==> Count(skipped, reason)[reason] == 1
  {
  }

  /** One turn of the loop. */
  function Step(h: History, x: Setup, s0: Sim): (s: Sim)
    requires s0.index + 1 < |h.one| && !s0.raised
    ensures s.index > s0.index || (s.raised && s.index == s0.index)
    ensures s.index <= |h.one|
    ensures s0.trades <= s.trades
  {
    var s := Rollover(s0, CloseTime(h.one[s0.index]));
    var m := Decide(h, x, s);
    match m
    case Wait => s.(index := s.index + 1)
    case Skip(reason) => s.(index := s.index + 1, skipped := Count(s.skipped, reason))
    case Fail => s.(raised := true)
    case Enter(_, _, _) =>
      var (t, exitIndex) := TradeOf(h, x, s.index, m);
      s.(index := exitIndex + 1, equity := s.equity + t.pnl, dailyPnl := s.dailyPnl + t.pnl,
         losses := if t.pnl < 0.0 then s.losses + 1 else 0, lastTrade := Some(t.exitTime), trades := s.trades + [t])
  }

  function Run(h: History, x: Setup, s: Sim): (r: Sim)
    ensures s.trades <= r.trades
    decreases |h.one| - s.index, if s.raised then 0 else 1
  {
    if s.raised || s.index + 1 >= |h.one| then s else Run(h, x, Step(h, x, s))
  }

  /** The first bar of the evaluation: never before the warm-up. */
  function StartIndex(one: seq<Candle>, start: Option<int>): (i: nat)
    ensures i >= WARMUP_BARS
  {
    if start.None? then WARMUP_BARS
    else
      var first := FirstFrom(one, 0, start.value);
      if first > WARMUP_BARS then first else WARMUP_BARS
  }

  function FirstFrom(one: seq<Candle>, i: nat, start: int): (k: nat)
    requires i <= |one|
    ensures i <= k <= |one|
    ensures forall j :: i <= j < k ==> one[j].timestamp < start
    ensures k < |one| ==> one[k].timestamp >= start
    decreases |one| - i
  {
    if i == |one| || one[i].timestamp >= start then i else FirstFrom(one, i + 1, start)
  }

  /** The evaluation starts after fifty bars of warm-up, and at the first bar of its period if that is later. */
  lemma StartMeans(one: seq<Candle>, start: Option<int>)
    ensures var i := StartIndex(one, start);
      && i >= 50 && (start.None? ==> i == 50)
      && (start.Some? && i > 50 ==> i <= |one| && forall j :: 0 <= j < i ==> one[j].timestamp < start.value)
      && (start.Some? && i < |one| ==> exists j :: 0 <= j <= i && one[j].timestamp >= start.value)
  {
  }

  function Begin(h: History, x: Setup, start: Option<int>): Sim {
    Sim(StartIndex(h.one, start), x.initialEquity, 0.0, 0, None, None, [], map[], false)
  }

  function Simulated(h: History, x: Setup, start: Option<int>): Sim {
    Run(h, x, Begin(h, x, start))
  }

  lemma DecidesAlike(h: History, x: Setup, s: Sim)
    requires s.index + 1 < |h.one|
    ensures Decide(h, x, s.(raised := true)) == Decide(h, x, s)
  {
    hide Closed, Evaluate, BuildExecutable, Signalled;
  }

  /** A run goes on to the last bar but one, unless a decision on its way raises, and then it ends there. */
  lemma {:induction false} RunEnds(h: History, x: Setup, s: Sim)
    requires !s.raised
    ensures var r := Run(h, x, s);
      if r.raised then r.index + 1 < |h.one| && Decide(h, x, r).Fail? else |h.one| <= r.index + 1
    decreases |h.one| - s.index, if s.raised then 0 else 1
  {
    hide Decide, TradeOf;
    if s.index + 1 < |h.one| {
      var next := Step(h, x, s);
      if next.raised {
        assert Run(h, x, next) == next;
        DecidesAlike(h, x, Rollover(s, CloseTime(h.one[s.index])));
      } else {
        RunEnds(h, x, next);
      }
    }
  }

  /** So does every simulation. */
  lemma SimulationEnds(h: History, x: Setup, start: Option<int>)
    ensures var r := Simulated(h, x, start);
      if r.raised then r.index + 1 < |h.one| && Decide(h, x, r).Fail? else |h.one| <= r.index + 1
  {
    hide Decide, Run;
    RunEnds(h, x, Begin(h, x, start));
  }

  // ----- the loops -----

  /** The inner loop: the bars after the entry in turn. */
  method FindExit(one: seq<Candle>, from: nat, stop: real, target: real) returns (k: nat)
    requires from <= |one|
    ensures k == FirstTouch(one, from, stop, target)
  {
    for i := from to |one|
      invariant FirstTouch(one, from, stop, target) == FirstTouch(one, i, stop, target)
    {
      if one[i].low <= stop {
        return i;
      }
      if one[i].high >= target {
        return i;
      }
    }
    k := |one|;
  }

  /** `_simulate`. */
  method Simulate(h: History, x: Setup, start: Option<int>) returns (s: Sim)
    ensures s == Simulated(h, x, start)
  {
    hide Step;
    s := Begin(h, x, start);
    while !s.raised && s.index + 1 < |h.one|
      invariant Run(h, x, s) == Simulated(h, x, start)
      decreases |h.one| - s.index, if s.raised then 0 else 1
    {
      s := Turn(h, x, s);
    }
  }

  /** One turn of the outer loop. */
  method Turn(h: History, x: Setup, s0: Sim) returns (s: Sim)
    requires s0.index + 1 < |h.one| && !s0.raised
    ensures s == Step(h, x, s0)
  {
    hide Decide, Rollover;
    s := Rollover(s0, CloseTime(h.one[s0.index]));
    var m := Decide(h, x, s);
    match m {
      case Wait =>
        s := s.(index := s.index + 1);
      case Skip(reason) =>
        s := s.(index := s.index + 1, skipped := Count(s.skipped, reason));
      case Fail =>
        s := s.(raised := true);
      case Enter(_, _, _) =>
        var t, exitIndex := MakeTrade(h, x, s.index, m);
        s := s.(index := exitIndex + 1, equity := s.equity + t.pnl, dailyPnl := s.dailyPnl + t.pnl,
                losses := if t.pnl < 0.0 then s.losses + 1 else 0, lastTrade := Some(t.exitTime), trades := s.trades + [t]);
    }
  }

  method MakeTrade(h: History, x: Setup, index: nat, m: Move) returns (t: Trade, exitIndex: nat)
    requires m.Enter? && m.plan.Executable? && index + 1 < |h.one|
    ensures (t, exitIndex) == TradeOf(h, x, index, m)
    ensures exitIndex < |h.one| && BooksBalance(h, x, index, m, t, exitIndex)
  {
    hide TradeAt, BooksBalance;
    TradeBooks(h, x, index, m);
    var outcome, touched := TimeExit, h.one[|h.one| - 1].close;
    exitIndex := |h.one| - 1;
    var k := FindExit(h.one, index + 1, m.plan.stop, m.plan.target);
    if k < |h.one| {
      exitIndex := k;
      if h.one[k].low <= m.plan.stop {
        outcome, touched := StopExit, m.plan.stop;
      } else {
        outcome, touched := TargetExit, m.plan.target;
      }
    }
    t := TradeAt(h, x, index, m, outcome, touched, exitIndex);
  }

  // ----- accounts -----

  function TotalPnl(trades: seq<Trade>): real {
    if trades == [] then 0.0 else TotalPnl(trades[..|trades| - 1]) + trades[|trades| - 1].pnl
  }

  /** Trades in the order of time that never overlap: each enters when the one before has exited. */
  predicate Disjoint(trades: seq<Trade>) {
    && (forall i :: 0 <= i < |trades| ==> trades[i].entryTime < trades[i].exitTime)
    && (forall i, j :: 0 <= i < j < |trades| ==> trades[i].exitTime <= trades[j].entryTime)
  }

  /** What the simulation keeps: the equity is the initial equity and every result so far, the trades
      do not overlap, only the last can be a time exit, and all of them have exited by the open of the next bar. */
  ghost predicate SimInv(h: History, x: Setup, s: Sim) {
    && s.equity == x.initialEquity + TotalPnl(s.trades)
    && Disjoint(s.trades)
    && (forall i :: 0 <= i < |s.trades| && s.trades[i].outcome.TimeExit? ==> i == |s.trades| - 1 && s.index >= |h.one|)
    && (forall i, j :: 0 <= i < |s.trades| && s.index <= j < |h.one| ==> s.trades[i].exitTime <= h.one[j].timestamp)
  }

  /** The shape of the trade of an entry. */
  lemma TradeShape(h: History, x: Setup, index: nat, m: Move)
    requires m.Enter? && m.plan.Executable? && index + 1 < |h.one|
    ensures var (t, exitIndex) := TradeOf(h, x, index, m);
            && index < exitIndex < |h.one|
            && t.entryTime == h.one[index + 1].timestamp && t.exitTime == CloseTime(h.one[exitIndex])
            && (forall j :: index < j < exitIndex ==> !Touches(h.one[j], m.plan.stop, m.plan.target))
            && (t.outcome.StopExit? ==> h.one[exitIndex].low <= m.plan.stop)
            && (t.outcome.TargetExit? ==> h.one[exitIndex].low > m.plan.stop && h.one[exitIndex].high >= m.plan.target)
            && (t.outcome.TimeExit? ==> exitIndex == |h.one| - 1)
            && (t.outcome.TimeExit? <==> FirstTouch(h.one, index + 1, m.plan.stop, m.plan.target) == |h.one|)
            && (!t.outcome.TimeExit? ==> exitIndex == FirstTouch(h.one, index + 1, m.plan.stop, m.plan.target))
  {
  }

  /** What one turn does to the books. */
  lemma StepShape(h: History, x: Setup, s: Sim)
    requires s.index + 1 < |h.one| && !s.raised
    ensures var m, s' := Decide(h, x, Rollover(s, CloseTime(h.one[s.index]))), Step(h, x, s);
            if m.Enter? then
              var (t, exitIndex) := TradeOf(h, x, s.index, m);
              s'.trades == s.trades + [t] && s'.equity == s.equity + t.pnl && s'.index == exitIndex + 1
            else s'.trades == s.trades && s'.equity == s.equity && s'.index >= s.index
  {
    hide Decide, TradeOf, Rollover;
  }

  lemma PnlGrows(trades: seq<Trade>, t: Trade)
    ensures TotalPnl(trades + [t]) == TotalPnl(trades) + t.pnl
  {
    assert (trades + [t])[..|trades + [t]| - 1] == trades;
  }

  lemma StepKeeps(h: History, x: Setup, s: Sim)
    requires Spaced(h.one) && s.index + 1 < |h.one| && !s.raised && SimInv(h, x, s)
    ensures SimInv(h, x, Step(h, x, s))
  {
    hide Decide, TradeOf, Rollover, Step, TotalPnl;
    StepShape(h, x, s);
    var m := Decide(h, x, Rollover(s, CloseTime(h.one[s.index])));
    if m.Enter? {
      TradeShape(h, x, s.index, m);
      PnlGrows(s.trades, TradeOf(h, x, s.index, m).0);
    }
  }

  /** Over the whole simulation: the final equity is the initial equity plus the sum of all results,
      and no two trades overlap. */
  lemma {:induction false} RunKeeps(h: History, x: Setup, s: Sim)
    requires Spaced(h.one) && SimInv(h, x, s)
    ensures SimInv(h, x, Run(h, x, s))
    decreases |h.one| - s.index, if s.raised then 0 else 1
  {
    hide Step, SimInv;
    if !s.raised && s.index + 1 < |h.one| {
      StepKeeps(h, x, s);
      RunKeeps(h, x, Step(h, x, s));
    }
  }

  lemma SimulationAccounts(h: History, x: Setup, start: Option<int>)
    requires Spaced(h.one)
    ensures var s := Simulated(h, x, start);
            && s.equity == x.initialEquity + TotalPnl(s.trades) && Disjoint(s.trades)
            && (forall i :: 0 <= i < |s.trades| && s.trades[i].outcome.TimeExit? ==> i == |s.trades| - 1)
  {
    RunKeeps(h, x, Begin(h, x, start));
  }

  // ----- causality -----

  /** Two histories that agree on their first `m` one-minute bars and on every higher bar that has
      closed by the close of the last of them. */
  ghost predicate AgreeUntil(a: History, b: History, m: nat) {
    && 1 <= m <= |a.one| && m <= |b.one|
    && a.one[..m] == b.one[..m]
    && Closed(a.three, THREE_MINUTES, CloseTime(a.one[m - 1])) == Closed(b.three, THREE_MINUTES, CloseTime(a.one[m - 1]))
    && Closed(a.five, FIVE_MINUTES, CloseTime(a.one[m - 1])) == Closed(b.five, FIVE_MINUTES, CloseTime(a.one[m - 1]))
  }

  lemma {:induction false} ClosedOfClosed(bars: seq<Candle>, interval: int, t: int, cut: int)
    requires t <= cut
    ensures Closed(Closed(bars, interval, cut), interval, t) == Closed(bars, interval, t)
    decreases |bars|
  {
    if bars != [] {
      var last := bars[|bars| - 1];
      var rest := bars[..|bars| - 1];
      ClosedOfClosed(rest, interval, t, cut);
      var kept := Closed(rest, interval, cut);
      if last.timestamp + interval <= cut {
        assert (kept + [last])[..|kept + [last]| - 1] == kept;
      }
    }
  }

  lemma OneAgrees(a: History, b: History, m: nat)
    requires AgreeUntil(a, b, m)
    ensures forall j :: 0 <= j < m ==> a.one[j] == b.one[j]
  {
    forall j | 0 <= j < m ensures a.one[j] == b.one[j] {
      assert a.one[..m][j] == b.one[..m][j];
    }
  }

  /** The same decision on the same bars, whatever comes later. */
  lemma DecideAgrees(a: History, b: History, x: Setup, s: Sim, m: nat)
    requires Spaced(a.one) && AgreeUntil(a, b, m) && s.index + 1 < m
    ensures Decide(a, x, s) == Decide(b, x, s)
  {
    hide Closed, DecideOn;
    OneAgrees(a, b, m);
    var t, cut := CloseTime(a.one[s.index]), CloseTime(a.one[m - 1]);
    ClosedOfClosed(a.three, THREE_MINUTES, t, cut);
    ClosedOfClosed(b.three, THREE_MINUTES, t, cut);
    ClosedOfClosed(a.five, FIVE_MINUTES, t, cut);
    ClosedOfClosed(b.five, FIVE_MINUTES, t, cut);
    assert a.one[..s.index + 1] == b.one[..s.index + 1];
  }

  /** A touch before bar `m` is found in both histories or in neither. */
  lemma {:induction false} TouchAgrees(a: seq<Candle>, b: seq<Candle>, i: nat, stop: real, target: real, m: nat)
    requires i <= m <= |a| && m <= |b| && forall j :: 0 <= j < m ==> a[j] == b[j]
    ensures var ka, kb := FirstTouch(a, i, stop, target), FirstTouch(b, i, stop, target);
            ka == kb || (ka >= m && kb >= m)
    decreases m - i
  {
    if i < m && !Touches(a[i], stop, target) {
      TouchAgrees(a, b, i + 1, stop, target, m);
    }
  }

  /** A trade that was decided by its stop or target and had exited by `cut`. */
  predicate IsEarly(t: Trade, cut: int) {
    !t.outcome.TimeExit? && t.exitTime <= cut
  }

  /** The leading early trades of a list. */
  function Early(trades: seq<Trade>, cut: int): seq<Trade> {
    if trades == [] || !IsEarly(trades[0], cut) then [] else [trades[0]] + Early(trades[1..], cut)
  }

  lemma {:induction false} EarlyStops(kept: seq<Trade>, t: Trade, more: seq<Trade>, cut: int)
    requires (forall i :: 0 <= i < |kept| ==> IsEarly(kept[i], cut)) && !IsEarly(t, cut)
    ensures Early(kept + [t] + more, cut) == kept && Early(kept, cut) == kept
    decreases |kept|
  {
    if kept != [] {
      EarlyStops(kept[1..], t, more, cut);
      assert (kept + [t] + more)[1..] == kept[1..] + [t] + more;
    } else {
      assert (kept + [t] + more)[0] == t;
    }
  }

  ghost predicate AllEarly(trades: seq<Trade>, cut: int) {
    forall i :: 0 <= i < |trades| ==> IsEarly(trades[i], cut)
  }

  /** Once a late trade was made, or none at all, the early trades are what they were. */
  lemma LateStep(h: History, x: Setup, s: Sim, m: nat)
    requires Spaced(h.one) && 1 <= m <= |h.one| && s.index + 1 < |h.one| && !s.raised
    requires AllEarly(s.trades, CloseTime(h.one[m - 1]))
    requires var move := Decide(h, x, Rollover(s, CloseTime(h.one[s.index])));
             move.Enter? ==> FirstTouch(h.one, s.index + 1, move.plan.stop, move.plan.target) >= m
    ensures var cut := CloseTime(h.one[m - 1]);
            var s' := Step(h, x, s);
            || s'.trades == s.trades
            || (Early(Run(h, x, s).trades, cut) == s.trades)
  {
    hide Decide, TradeOf, Rollover, Step, Early;
    StepShape(h, x, s);
    var cut, move := CloseTime(h.one[m - 1]), Decide(h, x, Rollover(s, CloseTime(h.one[s.index])));
    if move.Enter? {
      TradeShape(h, x, s.index, move);
      var (t, exitIndex) := TradeOf(h, x, s.index, move);
      assert !IsEarly(t, cut) by {
        if !t.outcome.TimeExit? {
          assert h.one[m - 1].timestamp < CloseTime(h.one[m - 1]) <= h.one[exitIndex].timestamp;
        }
      }
      var before, all := Step(h, x, s).trades, Run(h, x, s).trades;
      assert before <= all;
      EarlyStops(s.trades, t, all[|before|..], cut);
      assert all == s.trades + [t] + all[|before|..];
    }
  }

  lemma EarlyAll(trades: seq<Trade>, cut: int)
    requires AllEarly(trades, cut)
    ensures Early(trades, cut) == trades
    decreases |trades|
  {
    if trades != [] {
      EarlyAll(trades[1..], cut);
    }
  }

  /** From bar `m - 1` on nothing early is added. */
  lemma {:induction false} NothingEarly(h: History, x: Setup, s: Sim, m: nat)
    requires Spaced(h.one) && 1 <= m <= |h.one| && s.index + 1 >= m
    requires AllEarly(s.trades, CloseTime(h.one[m - 1]))
    ensures Early(Run(h, x, s).trades, CloseTime(h.one[m - 1])) == s.trades
    decreases |h.one| - s.index, if s.raised then 0 else 1
  {
    hide Step, Decide, Rollover;
    EarlyAll(s.trades, CloseTime(h.one[m - 1]));
    if !s.raised && s.index + 1 < |h.one| {
      LateStep(h, x, s, m);
      if Step(h, x, s).trades == s.trades {
        NothingEarly(h, x, Step(h, x, s), m);
      }
    }
  }

  /** One turn on the agreed bars: the same turn in both, or a late trade in both. */
  lemma StepAgrees(a: History, b: History, x: Setup, s: Sim, m: nat)
    requires Spaced(a.one) && Spaced(b.one) && AgreeUntil(a, b, m) && s.index + 1 < m && !s.raised
    requires AllEarly(s.trades, CloseTime(a.one[m - 1]))
    ensures var cut := CloseTime(a.one[m - 1]);
            || (Step(a, x, s) == Step(b, x, s) && AllEarly(Step(a, x, s).trades, cut))
            || Early(Run(a, x, s).trades, cut) == s.trades == Early(Run(b, x, s).trades, cut)
  {
    hide DecideOn, Closed;
    OneAgrees(a, b, m);
    var cut := CloseTime(a.one[m - 1]);
    var r := Rollover(s, CloseTime(a.one[s.index]));
    DecideAgrees(a, b, x, r, m);
    var move := Decide(a, x, r);
    if move.Enter? {
      TouchAgrees(a.one, b.one, s.index + 1, move.plan.stop, move.plan.target, m);
      EnterAgrees(a, b, x, s, m, move);
    }
  }

  lemma EnterAgrees(a: History, b: History, x: Setup, s: Sim, m: nat, move: Move)
    requires Spaced(a.one) && Spaced(b.one) && AgreeUntil(a, b, m) && s.index + 1 < m && !s.raised
    requires AllEarly(s.trades, CloseTime(a.one[m - 1]))
    requires a.one[s.index] == b.one[s.index]
    requires move == Decide(a, x, Rollover(s, CloseTime(a.one[s.index]))) == Decide(b, x, Rollover(s, CloseTime(a.one[s.index])))
    requires move.Enter?
    requires var ka, kb := FirstTouch(a.one, s.index + 1, move.plan.stop, move.plan.target),
                           FirstTouch(b.one, s.index + 1, move.plan.stop, move.plan.target);
             ka == kb || (ka >= m && kb >= m)
    ensures var cut := CloseTime(a.one[m - 1]);
            || (Step(a, x, s) == Step(b, x, s) && AllEarly(Step(a, x, s).trades, cut))
            || Early(Run(a, x, s).trades, cut) == s.trades == Early(Run(b, x, s).trades, cut)
  {
    hide Decide, Rollover, FirstTouch, Closed, Step;
    OneAgrees(a, b, m);
    var k := FirstTouch(a.one, s.index + 1, move.plan.stop, move.plan.target);
    if k >= m {
      LateEnter(a, x, s, m, move);
      LateEnter(b, x, s, m, move);
    } else {
      EarlyEnter(a, b, x, s, m, move);
    }
  }

  lemma LateEnter(h: History, x: Setup, s: Sim, m: nat, move: Move)
    requires Spaced(h.one) && 1 <= m <= |h.one| && s.index + 1 < |h.one| && !s.raised
    requires AllEarly(s.trades, CloseTime(h.one[m - 1]))
    requires move == Decide(h, x, Rollover(s, CloseTime(h.one[s.index]))) && move.Enter?
    requires FirstTouch(h.one, s.index + 1, move.plan.stop, move.plan.target) >= m
    ensures Early(Run(h, x, s).trades, CloseTime(h.one[m - 1])) == s.trades
  {
    hide Decide, TradeOf;
    LateStep(h, x, s, m);
    assert |Step(h, x, s).trades| == |s.trades| + 1;
  }

  lemma EarlyEnter(a: History, b: History, x: Setup, s: Sim, m: nat, move: Move)
    requires Spaced(a.one) && m <= |a.one| && m <= |b.one| && 1 <= m && s.index + 1 < m && !s.raised
    requires forall j :: 0 <= j < m ==> a.one[j] == b.one[j]
    requires AllEarly(s.trades, CloseTime(a.one[m - 1]))
    requires move == Decide(a, x, Rollover(s, CloseTime(a.one[s.index]))) == Decide(b, x, Rollover(s, CloseTime(a.one[s.index])))
    requires move.Enter?
    requires var k := FirstTouch(a.one, s.index + 1, move.plan.stop, move.plan.target);
             k < m && FirstTouch(b.one, s.index + 1, move.plan.stop, move.plan.target) == k
    ensures Step(a, x, s) == Step(b, x, s) && AllEarly(Step(a, x, s).trades, CloseTime(a.one[m - 1]))
  {
    hide Decide, FirstTouch;
    var r := Rollover(s, CloseTime(a.one[s.index]));
    TradeShape(a, x, r.index, move);
    assert TradeOf(a, x, r.index, move) == TradeOf(b, x, r.index, move);
    var (t, k) := TradeOf(a, x, r.index, move);
    assert IsEarly(t, CloseTime(a.one[m - 1])) by {
      if k < m - 1 {
        assert CloseTime(a.one[k]) <= a.one[m - 1].timestamp;
      }
    }
    assert Step(a, x, s).trades == s.trades + [t];
  }

  /** From the same state on agreed bars both simulations make the same early trades. */
  lemma {:induction false} RunAgrees(a: History, b: History, x: Setup, s: Sim, m: nat)
    requires Spaced(a.one) && Spaced(b.one) && AgreeUntil(a, b, m)
    requires AllEarly(s.trades, CloseTime(a.one[m - 1]))
    ensures Early(Run(a, x, s).trades, CloseTime(a.one[m - 1])) == Early(Run(b, x, s).trades, CloseTime(a.one[m - 1]))
    decreases |a.one| - s.index, if s.raised then 0 else 1
  {
    hide Step, Closed;
    OneAgrees(a, b, m);
    if s.raised {
    } else if s.index + 1 >= m {
      NothingEarly(a, x, s, m);
      NothingEarly(b, x, s, m);
    } else {
      StepAgrees(a, b, x, s, m);
      if Step(a, x, s) == Step(b, x, s) && AllEarly(Step(a, x, s).trades, CloseTime(a.one[m - 1])) {
        RunAgrees(a, b, x, Step(a, x, s), m);
      }
    }
  }

  /** The simulator is causal: what it trades up to a bar does not depend on anything after it. */
  lemma Causal(a: History, b: History, x: Setup, start: Option<int>, m: nat)
    requires Spaced(a.one) && Spaced(b.one) && AgreeUntil(a, b, m)
    ensures Early(Simulated(a, x, start).trades, CloseTime(a.one[m - 1])) ==
            Early(Simulated(b, x, start).trades, CloseTime(a.one[m - 1]))
  {
    hide Step, Closed;
    OneAgrees(a, b, m);
    var sa, sb := Begin(a, x, start), Begin(b, x, start);
    if start.Some? {
      FirstAgrees(a.one, b.one, 0, start.value, m);
    }
    if sa.index == sb.index {
      RunAgrees(a, b, x, sa, m);
    } else {
      NothingEarly(a, x, sa, m);
      NothingEarly(b, x, sb, m);
    }
  }

  lemma {:induction false} FirstAgrees(a: seq<Candle>, b: seq<Candle>, i: nat, start: int, m: nat)
    requires i <= m <= |a| && m <= |b| && forall j :: 0 <= j < m ==> a[j] == b[j]
    ensures var ka, kb := FirstFrom(a, i, start), FirstFrom(b, i, start);
            ka == kb || (ka >= m && kb >= m)
    decreases m - i
  {
    if i < m && a[i].timestamp < start {
      FirstAgrees(a, b, i + 1, start, m);
    }
  }

  /** The leading early trades are all the early trades there are. */
  lemma EarlyIsEveryEarly(trades: seq<Trade>, cut: int, i: nat)
    requires Disjoint(trades) && i < |trades| && IsEarly(trades[i], cut)
    requires forall j :: 0 <= j < |trades| && trades[j].outcome.TimeExit? ==> j == |trades| - 1
    ensures i < |Early(trades, cut)| && Early(trades, cut)[i] == trades[i]
  {
    var upTo := trades[..i + 1];
    forall j | 0 <= j < |upTo| ensures IsEarly(upTo[j], cut) {
      if j < i {
        assert trades[j].exitTime <= trades[i].entryTime < trades[i].exitTime;
      }
    }
    EarlyPrefix(trades, i + 1, cut);
  }

  lemma {:induction false} EarlyPrefix(trades: seq<Trade>, n: nat, cut: int)
    requires n <= |trades| && AllEarly(trades[..n], cut)
    ensures n <= |Early(trades, cut)| && Early(trades, cut)[..n] == trades[..n]
    decreases n
  {
    if n > 0 {
      assert trades[..n][0] == trades[0];
      assert trades[1..][..n - 1] == trades[..n][1..];
      EarlyPrefix(trades[1..], n - 1, cut);
    }
  }
}
