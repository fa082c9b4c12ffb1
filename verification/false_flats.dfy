/** Runs in which FLAT is reported and is not true of the exchange. */
module FalseFlats {
  import opened Wrappers
  import opened OrderStates
  import opened Exchanges
  import opened TradeTables
  import opened Protocol
  import opened ProtocolSteps
  import opened SliceEffects
  import opened ProtocolRuns
  import opened RunBuilder

  lemma AloneLooksFlat(p: PlanId, s: Slice, truth: Truth, sent: seq<OrderRef>, traded: bool)
    requires s.position.Some? ==> !IsManaged(s.position.value.state)
    requires s.order.Some? ==> !IsActive(s.order.value.state)
    requires forall i :: 0 <= i < |s.attempts| ==> !IsUnresolved(s.attempts[i].state)
    ensures LooksFlat(Alone(p, s, truth, sent, traded).tables)
  {
  }

  /** What the tables say when the first lot was sold by attempt `a`, and closed. */
  function SoldOne(a: AttemptRow): Slice {
    var fill := FillRow(1, 1.0, 0);
    BoughtOne().(attempts := [a], fills := map[FlattenFill(1) := fill])
  }

  function ClosedOne(a: AttemptRow): Slice {
    SoldOne(a).(order := Some(OrderRow(2, 1, Closed, None, 1.0)),
                position := Some(PositionRow(1, Closed, true, ["tp"], 1)))
  }

  /** The close goes through, and the cleanup of the protective orders marks the attempt FILLED. */
  lemma CloseAndClean(run: seq<World>, events: seq<Event>, p: PlanId, s: Slice, closed: Slice, cleaned: Slice,
                      truth: Truth, sent: seq<OrderRef>)
    returns (run': seq<World>, events': seq<Event>)
    requires Run(run, events, LIMITS) && Last(run) == Alone(p, s, truth, sent, true)
    requires ClosedNow(s, closed) && Rewritten(closed, cleaned, 1)
    ensures Run(run', events', LIMITS) && Last(run') == Alone(p, cleaned, truth, sent, true)
  {
    hide Path, Next, Alone, ClosedNow, Rewritten;
    ClosedIsClosed(s, closed);
    AloneStep(p, s, closed, truth, sent, true, Closes(p));
    run', events' := Grow(run, events, LIMITS, Closes(p), Alone(p, closed, truth, sent, true));
    RewritesClosed(p, closed, cleaned, truth);
    AloneStep(p, closed, cleaned, truth, sent, true, RewritesAttempt(p, 1));
    run', events' := Grow(run', events', LIMITS, RewritesAttempt(p, 1), Alone(p, cleaned, truth, sent, true));
  }

  lemma ClosedIsClosed(s: Slice, closed: Slice)
    requires ClosedNow(s, closed)
    ensures PositionClosed(closed)
  {
  }

  lemma RewritesClosed(p: PlanId, s: Slice, s': Slice, truth: Truth)
    requires PositionClosed(s) && Rewritten(s, s', 1)
    ensures TableEvent(RewritesAttempt(p, 1), p, s, s', truth)
  {
  }

  function SoldRow(): Row {
    Row(RawFilled, 1, Some(1.0), None, 0)
  }

  /** One lot is sold, and the entry is still live. */
  function OneSold(p: PlanId, bought: nat): Truth {
    LiveEntry(p, bought)[Exit(p, 1) := Remote(1, 1, Done)]
  }

  lemma SellStep(p: PlanId, s: Slice, s': Slice, truth: Truth, sent: seq<OrderRef>)
    requires s == BoughtOne().(attempts := [NewAttempt(1)]) && s' == SoldOne(Observe(NewAttempt(1), SoldRow()))
    requires Reports(truth, Exit(p, 1), SoldRow())
    ensures Next(Alone(p, s, truth, sent, true), ExitRow(p, 1, SoldRow()), Alone(p, s', truth, sent, true))
  {
    hide Next, Alone, Reports;
    AloneStep(p, s, s', truth, sent, true, ExitRow(p, 1, SoldRow()));
  }

  lemma SoldOneRun(p: PlanId) returns (run: seq<World>, events: seq<Event>)
    ensures Run(run, events, LIMITS)
    ensures Last(run) == Alone(p, SoldOne(Observe(NewAttempt(1), SoldRow())), OneSold(p, 1), [Entry(p), Exit(p, 1)], true)
  {
    hide Path, Next, Alone;
    var sent := [Entry(p), Exit(p, 1)];
    var inFlight := LiveEntry(p, 1)[Exit(p, 1) := Remote(1, 0, InFlight)];
    run, events := BoughtOneRun(p);
    var s := BoughtOne().(attempts := [NewAttempt(1)]);
    OpenStep(p, BoughtOne(), s, LiveEntry(p, 1));
    run, events := Grow(run, events, LIMITS, OpensAttempt(p), Alone(p, s, LiveEntry(p, 1), [Entry(p)], true));
    ExitSendStep(p, s, 1, LiveEntry(p, 1));
    run, events := Grow(run, events, LIMITS, Sends(Exit(p, 1), 1), Alone(p, s, inFlight, sent, true));
    MoveStep(p, s, inFlight, OneSold(p, 1), sent, true);
    run, events := Grow(run, events, LIMITS, ExchangeMoves, Alone(p, s, OneSold(p, 1), sent, true));
    var sold := SoldOne(Observe(NewAttempt(1), SoldRow()));
    SellStep(p, s, sold, OneSold(p, 1), sent);
    run, events := Grow(run, events, LIMITS, ExitRow(p, 1, SoldRow()), Alone(p, sold, OneSold(p, 1), sent, true));
  }

  /** Two lots are asked for and one is bought; the cancel is refused, the lot is sold, and position and
      order are CLOSED. FLAT is reported, and then the exchange buys the second lot. */
  lemma FlatWithLiveEntry() returns (run: seq<World>, events: seq<Event>, p: PlanId, later: World)
    ensures Run(run, events, LIMITS) && LooksFlat(Last(run).tables)
    ensures Next(Last(run), ExchangeMoves, later)
    ensures p in later.tables.positions && later.tables.positions[p].state.Closed?
    ensures later.tables.positions[p].quantity == 1 && FilledOf(later.truth, Entry(p)) == 2
  {
    hide Path, Next, Alone;
    p := "p";
    var sent, sold := [Entry(p), Exit(p, 1)], OneSold(p, 1);
    run, events := SoldOneRun(p);
    var a := Observe(NewAttempt(1), SoldRow());
    OneRow(FlattenFill(1), FillRow(1, 1.0, 0));
    var b := a.(cleanup := map["tp" := true]);
    run, events := CloseAndClean(run, events, p, SoldOne(a), ClosedOne(a), ClosedOne(b), sold, sent);
    AloneLooksFlat(p, ClosedOne(b), sold, sent, true);
    var bought := OneSold(p, 2);
    later := Alone(p, ClosedOne(b), bought, sent, true);
    MoveStep(p, ClosedOne(b), sold, bought, sent, true);
    AloneSlice(p, ClosedOne(b), bought, sent, true);
    AloneParts(p, ClosedOne(b), bought, sent, true);
  }

  lemma OneRow(k: FillKey, f: FillRow)
    ensures Total(map[k := f]) == f.quantity
  {
    TotalSplit(map[k := f], k);
    assert map[k := f] - {k} == map[];
  }

  /** An order is rejected after it has bought one lot: no position, and FLAT is reported. */
  lemma FlatWithRejectedFill() returns (run: seq<World>, events: seq<Event>, p: PlanId)
    ensures Run(run, events, LIMITS) && LooksFlat(Last(run).tables)
    ensures FilledOf(Last(run).truth, Entry(p)) == 1 && p !in Last(run).tables.positions
  {
    hide Path, Next, Alone;
    p := "p";
    var truth := map[Entry(p) := Remote(2, 1, Done)];
    run, events := SubmittedRun(p, Remote(2, 1, Done));
    var e := EntryRow(p, Row(RawRejected, 1, Some(1.0), None, 0), Verdict(true, []));
    var s := Submitted2().(plan := Some(Rejected), order := Some(OrderRow(2, 1, Rejected, None, 1.0)));
    AloneStep(p, Submitted2(), s, truth, [Entry(p)], false, e);
    run, events := Grow(run, events, LIMITS, e, Alone(p, s, truth, [Entry(p)], false));
    AloneLooksFlat(p, s, truth, [Entry(p)], false);
    AloneParts(p, s, truth, [Entry(p)], false);
  }

  /** The submission fails in a way that is taken for a refusal without being one: the order is REJECTED,
      FLAT is reported, and then the exchange fills the order. */
  lemma FlatWithoutRefusal() returns (run: seq<World>, events: seq<Event>, p: PlanId, later: World)
    ensures Run(run, events, LIMITS) && LooksFlat(Last(run).tables)
    ensures Next(Last(run), ExchangeMoves, later)
    ensures FilledOf(later.truth, Entry(p)) == 2 && p !in later.tables.positions
  {
    hide Path, Next, Alone;
    p := "p";
    run, events := SubmittedRun(p, Remote(2, 0, Live));
    var s := Submitted2().(plan := Some(Rejected), order := Some(OrderRow(2, 0, Rejected, None, 1.0)));
    AloneStep(p, Submitted2(), s, LiveEntry(p, 0), [Entry(p)], false, OrderMoves(p, Rejected));
    run, events := Grow(run, events, LIMITS, OrderMoves(p, Rejected), Alone(p, s, LiveEntry(p, 0), [Entry(p)], false));
    AloneLooksFlat(p, s, LiveEntry(p, 0), [Entry(p)], false);
    later := Alone(p, s, LiveEntry(p, 2), [Entry(p)], false);
    MoveStep(p, s, LiveEntry(p, 0), LiveEntry(p, 2), [Entry(p)], false);
    AloneParts(p, s, LiveEntry(p, 2), [Entry(p)], false);
  }

  // ----- an exit that outlives its position -----

  function ClosedTwo(attempts: seq<AttemptRow>, fills: map<FillKey, FillRow>): Slice {
    BoughtTwo(attempts, fills).(order := Some(OrderRow(2, 2, Closed, None, 1.0)),
                                position := Some(PositionRow(2, Closed, true, ["tp"], 2)))
  }

  lemma TwoRows(a: FillRow, b: FillRow)
    ensures Total(map[FlattenFill(1) := a, ProtectiveTrade("t") := b]) == a.quantity + b.quantity
  {
    var m := map[FlattenFill(1) := a, ProtectiveTrade("t") := b];
    TotalSplit(m, FlattenFill(1));
    assert m - {FlattenFill(1)} == map[ProtectiveTrade("t") := b];
    OneRow(ProtectiveTrade("t"), b);
  }

  function PartlySoldRow(): Row {
    Row(RawPartiallyFilled, 1, Some(1.0), None, 0)
  }

  function BothSold(): map<FillKey, FillRow> {
    map[FlattenFill(1) := FillRow(1, 1.0, 0), ProtectiveTrade("t") := FillRow(1, 1.0, 0)]
  }

  lemma CoveredRun(p: PlanId) returns (run: seq<World>, events: seq<Event>)
    ensures Run(run, events, LIMITS)
    ensures Last(run) == Alone(p, BoughtTwo([Observe(NewAttempt(2), PartlySoldRow())], BothSold()),
                               TwoBought(p, Remote(2, 1, Live)), [Entry(p), Exit(p, 1)], true)
  {
    hide Path, Next, Alone;
    var sent, truth := [Entry(p), Exit(p, 1)], TwoBought(p, Remote(2, 1, Live));
    run, events := TwoBoughtRun(p, Remote(2, 1, Live));
    var g := ProtectiveFill("t", 1, 1.0, 0);
    var s := BoughtTwo([NewAttempt(2)], map[ProtectiveTrade("t") := FillRow(1, 1.0, 0)]);
    LedgerOne(p, g);
    AloneStep(p, BoughtTwo([NewAttempt(2)], map[]), s, truth, sent, true, LedgersFills(p, [g]));
    run, events := Grow(run, events, LIMITS, LedgersFills(p, [g]), Alone(p, s, truth, sent, true));
    var s' := BoughtTwo([Observe(NewAttempt(2), PartlySoldRow())], BothSold());
    assert BothSold() == s.fills[FlattenFill(1) := FillRow(1, 1.0, 0)];
    ExitRowStep(p, s, s', truth, sent, PartlySoldRow());
    run, events := Grow(run, events, LIMITS, ExitRow(p, 1, PartlySoldRow()), Alone(p, s', truth, sent, true));
  }

  /** One lot of a flatten attempt for two is sold, and a protective order sells the other: the ledger
      covers the position, which is CLOSED while that same attempt is still live. FLAT is reported, and
      then the attempt sells once more: three lots are sold of two. */
  lemma FlatWithLiveExit() returns (run: seq<World>, events: seq<Event>, p: PlanId, later: World)
    ensures Run(run, events, LIMITS) && LooksFlat(Last(run).tables)
    ensures Next(Last(run), ExchangeMoves, later)
    ensures FilledOf(later.truth, Entry(p)) == 2
    ensures FilledOf(later.truth, Exit(p, 1)) + Recorded(FillsOf(later.tables, p), ProtectiveTrade("t")) == 3
  {
    hide Path, Next, Alone;
    p := "p";
    var sent, truth := [Entry(p), Exit(p, 1)], TwoBought(p, Remote(2, 1, Live));
    run, events := CoveredRun(p);
    var a, both := Observe(NewAttempt(2), PartlySoldRow()), BothSold();
    TwoRows(FillRow(1, 1.0, 0), FillRow(1, 1.0, 0));
    var b := a.(state := Remotely(Filled), terminalConfirmed := true, reconciliationComplete := true,
                cleanup := map["tp" := true]);
    run, events := CloseAndClean(run, events, p, BoughtTwo([a], both), ClosedTwo([a], both), ClosedTwo([b], both), truth, sent);
    AloneLooksFlat(p, ClosedTwo([b], both), truth, sent, true);
    var more := TwoBought(p, Remote(2, 2, Live));
    later := Alone(p, ClosedTwo([b], both), more, sent, true);
    MoveStep(p, ClosedTwo([b], both), truth, more, sent, true);
    AloneParts(p, ClosedTwo([b], both), more, sent, true);
  }

  lemma LedgerOne(p: PlanId, g: ProtectiveFill)
    ensures IgnoreInsert(map[], [g]) == map[ProtectiveTrade(g.key) := FillRow(g.quantity, g.price, g.timestamp)]
  {
    assert [g][..0] == [];
  }

  lemma ExitRowStep(p: PlanId, s: Slice, s': Slice, truth: Truth, sent: seq<OrderRef>, row: Row)
    requires s.attempts == [NewAttempt(2)] && FlattenFill(1) !in s.fills
    requires Reports(truth, Exit(p, 1), row) && row.filled > 0 && row.average.Some?
    requires s' == s.(attempts := [Observe(NewAttempt(2), row)], fills := s'.fills)
    requires s'.fills == s.fills[FlattenFill(1) := FillRow(row.filled, row.average.value, row.time)]
    ensures Next(Alone(p, s, truth, sent, true), ExitRow(p, 1, row), Alone(p, s', truth, sent, true))
  {
    hide Next, Alone, Reports;
    AloneStep(p, s, s', truth, sent, true, ExitRow(p, 1, row));
  }
}
