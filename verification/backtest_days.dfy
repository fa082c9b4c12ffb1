/** What the risk guards of a simulated decision are told about the day: the result and the losing streak of exactly
    the trades that were decided on it, and the time of the last exit. */
module BacktestDays {
  import opened Wrappers
  import opened Candles
  import opened Pricing
  import opened Backtests

  function DayOf(c: Candle): int {
    CloseTime(c) / DAY_MS
  }

  /** The trade was decided on day `d`: at the close of the bar before the one it entered. */
  ghost predicate DecidedOn(one: seq<Candle>, t: Trade, d: int) {
    exists i :: 0 <= i < |one| - 1 && one[i + 1].timestamp == t.entryTime && DayOf(one[i]) == d
  }

  /** It was decided on day `d` or before. */
  ghost predicate DecidedBy(one: seq<Candle>, t: Trade, d: int) {
    exists e :: e <= d && DecidedOn(one, t, e)
  }

  /** The result of the trades that were decided on day `d`. */
  ghost function PnlOn(one: seq<Candle>, trades: seq<Trade>, d: int): real {
    if trades == [] then 0.0
    else PnlOn(one, trades[..|trades| - 1], d) + if DecidedOn(one, trades[|trades| - 1], d) then trades[|trades| - 1].pnl else 0.0
  }

  /** How many of them, counted from the last one back, lost. */
  ghost function LossesOn(one: seq<Candle>, trades: seq<Trade>, d: int): nat {
    if trades == [] || !DecidedOn(one, trades[|trades| - 1], d) || trades[|trades| - 1].pnl >= 0.0 then 0
    else 1 + LossesOn(one, trades[..|trades| - 1], d)
  }

  lemma OneDay(one: seq<Candle>, t: Trade, d: int, e: int)
    requires Spaced(one) && DecidedOn(one, t, d) && DecidedOn(one, t, e)
    ensures d == e
  {
    var i :| 0 <= i < |one| - 1 && one[i + 1].timestamp == t.entryTime && DayOf(one[i]) == d;
    var j :| 0 <= j < |one| - 1 && one[j + 1].timestamp == t.entryTime && DayOf(one[j]) == e;
    assert forall a, b :: 0 <= a < b < |one| ==> one[a].timestamp < one[b].timestamp;
  }

  /** Nothing was decided on a later day yet. */
  lemma {:induction false} NewDay(one: seq<Candle>, trades: seq<Trade>, d: int, e: int)
    requires Spaced(one) && d < e && forall k :: 0 <= k < |trades| ==> DecidedBy(one, trades[k], d)
    ensures PnlOn(one, trades, e) == 0.0 && LossesOn(one, trades, e) == 0
    decreases |trades|
  {
    if trades != [] {
      var last := trades[|trades| - 1];
      var b :| b <= d && DecidedOn(one, last, b);
      if DecidedOn(one, last, e) {
        OneDay(one, last, b, e);
      }
      NewDay(one, trades[..|trades| - 1], d, e);
    }
  }

  /** What a decision sees is the day so far. */
  ghost predicate DayKept(one: seq<Candle>, s: Sim) {
    && s.lastTrade == (if s.trades == [] then None else Some(s.trades[|s.trades| - 1].exitTime))
    && match s.day
       case None => s.trades == [] && s.dailyPnl == 0.0 && s.losses == 0
       case Some(d) =>
         && s.dailyPnl == PnlOn(one, s.trades, d) && s.losses == LossesOn(one, s.trades, d)
         && (forall k :: 0 <= k < |s.trades| ==> DecidedBy(one, s.trades[k], d))
         && (forall i :: s.index <= i < |one| ==> d <= DayOf(one[i]))
  }

  /** Before a decision the books turn to its day. */
  lemma RolloverKeeps(one: seq<Candle>, s: Sim)
    requires Spaced(one) && s.index < |one| && DayKept(one, s)
    ensures var r := Rollover(s, CloseTime(one[s.index]));
      r.day == Some(DayOf(one[s.index])) && DayKept(one, r)
  {
    hide DecidedOn, LossesOn, PnlOn;
    var e, r := DayOf(one[s.index]), Rollover(s, CloseTime(one[s.index]));
    DaysGrow(one, s.index);
    match s.day
    case None =>
      NothingYet(one, e);
    case Some(d) =>
      if d != e {
        NewDay(one, s.trades, d, e);
      }
      forall k | 0 <= k < |s.trades| ensures DecidedBy(one, s.trades[k], e) {
        var b :| b <= d && DecidedOn(one, s.trades[k], b);
        assert b <= e;
      }
  }

  lemma NothingYet(one: seq<Candle>, d: int)
    ensures PnlOn(one, [], d) == 0.0 && LossesOn(one, [], d) == 0
  {
  }

  lemma DaysGrow(one: seq<Candle>, i: nat)
    requires Spaced(one) && i < |one|
    ensures forall j :: i <= j < |one| ==> DayOf(one[i]) <= DayOf(one[j])
  {
    forall j | i <= j < |one| ensures DayOf(one[i]) <= DayOf(one[j]) {
      if i < j {
        assert CloseTime(one[i]) <= one[j].timestamp;
      }
    }
  }

  lemma TradeCounts(one: seq<Candle>, trades: seq<Trade>, t: Trade, d: int)
    requires DecidedOn(one, t, d)
    ensures PnlOn(one, trades + [t], d) == PnlOn(one, trades, d) + t.pnl
    ensures LossesOn(one, trades + [t], d) == if t.pnl < 0.0 then LossesOn(one, trades, d) + 1 else 0
  {
    assert (trades + [t])[..|trades + [t]| - 1] == trades;
  }

  /** One turn keeps the day. */
  lemma StepKeepsDay(h: History, x: Setup, s: Sim)
    requires Spaced(h.one) && s.index + 1 < |h.one| && !s.raised && DayKept(h.one, s)
    ensures DayKept(h.one, Step(h, x, s))
  {
    hide Decide, TradeOf, DecidedOn, PnlOn, LossesOn, Rollover;
    var e, r := DayOf(h.one[s.index]), Rollover(s, CloseTime(h.one[s.index]));
    RolloverKeeps(h.one, s);
    var m := Decide(h, x, r);
    if m.Enter? {
      var (t, exitIndex) := TradeOf(h, x, r.index, m);
      TradeShape(h, x, r.index, m);
      EntryDecides(h.one, t, s.index);
      TradeCounts(h.one, r.trades, t, e);
      assert DecidedBy(h.one, t, e);
    }
  }

  lemma EntryDecides(one: seq<Candle>, t: Trade, i: nat)
    requires i + 1 < |one| && t.entryTime == one[i + 1].timestamp
    ensures DecidedOn(one, t, DayOf(one[i]))
  {
  }

  /** Over the whole simulation every decision is told the result and the losing streak of its own day. */
  lemma {:induction false} RunKeepsDay(h: History, x: Setup, s: Sim)
    requires Spaced(h.one) && DayKept(h.one, s)
    ensures DayKept(h.one, Run(h, x, s))
    decreases |h.one| - s.index, if s.raised then 0 else 1
  {
    hide Step, DayKept;
    if !s.raised && s.index + 1 < |h.one| {
      StepKeepsDay(h, x, s);
      RunKeepsDay(h, x, Step(h, x, s));
    }
  }

  lemma SimulationKeepsDay(h: History, x: Setup, start: Option<int>)
    requires Spaced(h.one)
    ensures DayKept(h.one, Begin(h, x, start)) && DayKept(h.one, Simulated(h, x, start))
  {
    RunKeepsDay(h, x, Begin(h, x, start));
  }
}
