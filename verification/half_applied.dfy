/** Between the commits of an entry row: the order row is committed before the position row is. When the
    agent dies between them, does the position ever show what was bought? */
module HalfApplied {
  import opened Wrappers
  import opened OrderStates
  import opened Exchanges
  import opened TradeTables
  import opened Protocol
  import opened ProtocolSteps
  import opened SliceEffects
  import opened ProtocolRuns
  import opened RunBuilder
  import opened StuckPositions

  /** The agent died after the order row was committed, once or twice, and before the position row was. */
  ghost predicate HalfApplied(s: Slice, half: Slice, row: Row, v: Verdict) {
    && s.order.Some?
    && var o := s.order.value;
    && var state := MapState(row, o.requested);
    && Allowed(o.state, state) && HasManagedFill(state, row.filled)
    && half.order.Some? && half.plan.Some? && !half.plan.value.Planned?
    && (half.order.value.state == state || half.order.value.state == LifecycleState(state, row.filled, v))
    && half.order.value == o.(state := half.order.value.state, filled := row.filled, orderId := half.order.value.orderId)
    && half == s.(order := half.order, plan := half.plan)
  }

  ghost predicate HalfApplies(w: World, half: World, p: PlanId, row: Row, v: Verdict) {
    && Reports(w.truth, Entry(p), row)
    && half.truth == w.truth && half.sent == w.sent && half.tables.trades == w.tables.trades
    && SameOthers(w.tables, half.tables, p)
    && HalfApplied(SliceOf(w.tables, p), SliceOf(half.tables, p), row, v)
  }

  /** The position shows all that was bought. */
  ghost predicate Shows(w: World, p: PlanId) {
    p in w.tables.positions && w.tables.positions[p].quantity == FilledOf(w.truth, Entry(p))
  }

  /** Some continuation, without a resume, makes the position show all that was bought. */
  ghost predicate CanShow(w: World, p: PlanId, limits: Limits) {
    exists path, events :: Path(path, events, limits) && path[0] == w && Recovers(path, events) && Shows(Last(path), p)
  }

  /** The row cancels the order, and the position before it, if there was one, shows less than the row.
      Both can be checked before the row is written. */
  ghost predicate LosesPosition(s: Slice, row: Row)
    requires s.order.Some?
  {
    && MapState(row, s.order.value.requested).Cancelled?
    && (s.position.None? || s.position.value.quantity < row.filled)
  }

  // ----- what is lost stays lost -----

  /** The order is over with `filled` bought at least, and the position is missing or shows less. */
  ghost predicate Lost(s: Slice, filled: nat) {
    && s.order.Some? && (s.order.value.state.Cancelled? || s.order.value.state.Closed?)
    && (s.position.None? || s.position.value.quantity < filled)
  }

  lemma LostStep(e: Event, p: PlanId, s: Slice, s': Slice, truth: Truth, filled: nat)
    requires TableEvent(e, p, s, s', truth) && Lost(s, filled) && !e.EntryRow?
    ensures Lost(s', filled)
  {
  }

  lemma LostNext(w: World, e: Event, w': World, p: PlanId, filled: nat)
    requires WellFormed(w.truth) && Next(w, e, w') && Lost(SliceOf(w.tables, p), filled)
    requires Entry(p) in w.truth && filled <= w.truth[Entry(p)].filled
    requires e.EntryRow? ==> HasActiveOrder(w.tables, e.plan)
    ensures WellFormed(w'.truth) && Lost(SliceOf(w'.tables, p), filled)
    ensures Entry(p) in w'.truth && filled <= w'.truth[Entry(p)].filled
  {
    hide TableEvent, TradesFollow;
    match e {
      case ExchangeMoves =>
        assert RemoteStep(w.truth[Entry(p)], w'.truth[Entry(p)]);
      case Unanswered(_) =>
      case Sends(_, _) =>
      case _ =>
        if e.plan == p {
          LostStep(e, p, SliceOf(w.tables, p), SliceOf(w'.tables, p), w.truth, filled);
        }
    }
  }

  lemma {:induction false} LostForEver(path: seq<World>, events: seq<Event>, limits: Limits, p: PlanId, filled: nat, i: nat)
    requires Path(path, events, limits) && Recovers(path, events) && i < |path|
    requires WellFormed(path[0].truth) && Lost(SliceOf(path[0].tables, p), filled)
    requires Entry(p) in path[0].truth && filled <= path[0].truth[Entry(p)].filled
    ensures WellFormed(path[i].truth) && Lost(SliceOf(path[i].tables, p), filled)
    ensures Entry(p) in path[i].truth && filled <= path[i].truth[Entry(p)].filled
  {
    hide Next, Fits, Lost, WellFormed;
    if i > 0 {
      LostForEver(path, events, limits, p, filled, i - 1);
      LostNext(path[i - 1], events[i - 1], path[i], p, filled);
    }
  }

  lemma LostIsNotClosed(w: World, p: PlanId, filled: nat)
    requires Lost(SliceOf(w.tables, p), filled) && 0 < filled <= FilledOf(w.truth, Entry(p))
    ensures !Shows(w, p) && !BoughtIsClosed(w.tables, w.truth, p)
    ensures p in w.tables.orders && !IsActive(w.tables.orders[p].state)
  {
  }

  // ----- what is not lost can be read again -----

  /** The exchange finishes the order, which is still active, and its final row is taken. */
  lemma ReadAgain(half: World, p: PlanId, limits: Limits)
    requires WellFormed(half.truth) && Entry(p) in half.truth && half.truth[Entry(p)].filled > 0
    requires p in half.tables.plans && HasActiveOrder(half.tables, p) && IsClosable(half.tables.orders[p].state)
    ensures CanShow(half, p, limits)
  {
    hide Path, Next, TableEvent, RecordsTrade;
    var s := SliceOf(half.tables, p);
    var x := half.truth[Entry(p)];
    var w1 := half.(truth := half.truth[Entry(p) := x.(phase := Done)]);
    Finishes(half, p);
    FinalRowApplies(p, s, w1.truth);
    var e := EntryRow(p, FinalRow(s.order.value, x.filled), Verdict(true, ["tp"]));
    var w2 := World(WithSlice(half.tables, p, Finished(s, x.filled), true), w1.truth, half.sent);
    TradedStep(half.tables, w2.tables, w1.truth, half.sent, e, p, Finished(s, x.filled));
    Stay(half, limits);
    var path, events := Grow([half], [], limits, ExchangeMoves, w1);
    path, events := Grow(path, events, limits, e, w2);
    assert path == [half, w1, w2] && events == [ExchangeMoves, e];
    assert Recovers(path, events) && Shows(Last(path), p);
  }

  lemma ShowsNow(half: World, p: PlanId, limits: Limits)
    requires Shows(half, p)
    ensures CanShow(half, p, limits)
  {
    hide Next, Fits, Shows;
    Stay(half, limits);
    assert Path([half], [], limits) && Recovers([half], []) && Last([half]) == half;
  }

  /** What a half-applied row leaves: lost, or shown already, or an order that is still active. */
  lemma HalfCases(p: PlanId, s: Slice, half: Slice, truth: Truth, row: Row, v: Verdict)
    requires WellFormed(truth) && PlanInv(p, s, truth) && Reports(truth, Entry(p), row) && HalfApplied(s, half, row, v)
    ensures 0 < row.filled == FilledOf(truth, Entry(p)) && half.order.Some? && half.plan.Some?
    ensures LosesPosition(s, row) ==> Lost(half, row.filled)
    ensures !LosesPosition(s, row) ==>
      || (half.position.Some? && half.position.value.quantity == row.filled)
      || (IsActive(half.order.value.state) && IsClosable(half.order.value.state))
  {
  }

  /** The agent died between the commits of an entry row with a fill. Without a resume, the position can
      come to show all that was bought exactly when the row does not lose it: when it does not cancel the
      order, or the position already showed its quantity. Otherwise, in every continuation, what was
      bought is never a closed position, and nothing makes the order active again. */
  lemma HalfAppliedShowsIff(w: World, half: World, p: PlanId, row: Row, v: Verdict, limits: Limits)
    requires Good(w) && HalfApplies(w, half, p, row, v)
    ensures SliceOf(w.tables, p).order.Some?
    ensures CanShow(half, p, limits) <==> !LosesPosition(SliceOf(w.tables, p), row)
    ensures LosesPosition(SliceOf(w.tables, p), row) ==>
      forall path, events :: Path(path, events, limits) && path[0] == half && Recovers(path, events) ==>
        !BoughtIsClosed(Last(path).tables, Last(path).truth, p)
  {
    hide Inv, PlanInv, Next, Fits, Shows, Lost, LosesPosition, BoughtIsClosed;
    PlanPart(w, p);
    var s, h := SliceOf(w.tables, p), SliceOf(half.tables, p);
    HalfCases(p, s, h, w.truth, row, v);
    if LosesPosition(s, row) {
      forall path, events | Path(path, events, limits) && path[0] == half && Recovers(path, events)
        ensures !Shows(Last(path), p) && !BoughtIsClosed(Last(path).tables, Last(path).truth, p)
      {
        LostForEver(path, events, limits, p, row.filled, |path| - 1);
        LostIsNotClosed(Last(path), p, row.filled);
      }
    } else if h.position.Some? && h.position.value.quantity == row.filled {
      ShownSlice(half, p);
      ShowsNow(half, p, limits);
    } else {
      ActiveSlice(half, p);
      ReadAgain(half, p, limits);
    }
  }

  lemma ShownSlice(w: World, p: PlanId)
    ensures Shows(w, p) <==>
      SliceOf(w.tables, p).position.Some? && SliceOf(w.tables, p).position.value.quantity == FilledOf(w.truth, Entry(p))
  {
  }

  lemma ActiveSlice(w: World, p: PlanId)
    requires SliceOf(w.tables, p).order.Some? && SliceOf(w.tables, p).plan.Some?
    ensures p in w.tables.plans && p in w.tables.orders
    ensures w.tables.orders[p] == SliceOf(w.tables, p).order.value
  {
  }

  /** Two lots are asked for, one is bought and the rest cancelled; the agent dies before the position row
      is committed. The tables look flat, and the lot is never managed. */
  lemma LostFillRun() returns (run: seq<World>, events: seq<Event>, half: World, p: PlanId, row: Row, v: Verdict)
    ensures Run(run, events, LIMITS) && HalfApplies(Last(run), half, p, row, v)
    ensures LooksFlat(half.tables) && FilledOf(half.truth, Entry(p)) == 1 && p !in half.tables.positions
    ensures SliceOf(Last(run).tables, p).order.Some? && LosesPosition(SliceOf(Last(run).tables, p), row)
  {
    hide Path, Next, Alone, SliceOf;
    p, row, v := "p", Row(RawCanceled, 1, Some(1.0), None, 0), Verdict(true, ["tp"]);
    var truth := map[Entry(p) := Remote(2, 1, Done)];
    run, events := SubmittedRun(p, Remote(2, 1, Done));
    var s := Submitted2().(plan := Some(Cancelled), order := Some(OrderRow(2, 1, Cancelled, None, 1.0)));
    half := Alone(p, s, truth, [Entry(p)], false);
    AloneParts(p, s, truth, [Entry(p)], false);
    AloneParts(p, Submitted2(), truth, [Entry(p)], false);
    AloneSlice(p, s, truth, [Entry(p)], false);
    AloneSlice(p, Submitted2(), truth, [Entry(p)], false);
    AloneTrades(p, s, truth, [Entry(p)]);
    AloneTrades(p, Submitted2(), truth, [Entry(p)]);
    AloneFlat(p, s, truth, [Entry(p)]);
  }

  lemma AloneFlat(p: PlanId, s: Slice, truth: Truth, sent: seq<OrderRef>)
    requires s.position.None? && s.order.Some? && s.order.value.state.Cancelled? && s.attempts == []
    ensures LooksFlat(Alone(p, s, truth, sent, false).tables)
  {
  }
}
