/** Which managed positions can still be closed, and how one comes about that cannot. */
module StuckPositions {
  import opened Wrappers
  import opened OrderStates
  import opened Exchanges
  import opened TradeTables
  import opened Protocol
  import opened ProtocolSteps
  import opened SliceEffects
  import opened ProtocolRuns
  import opened RunBuilder

  /** A managed position whose order is REJECTED. */
  ghost predicate Stuck(s: Slice) {
    && s.order.Some? && s.order.value.state.Rejected?
    && s.position.Some? && IsManaged(s.position.value.state)
  }

  lemma StuckStep(e: Event, p: PlanId, s: Slice, s': Slice, truth: Truth)
    requires TableEvent(e, p, s, s', truth) && Stuck(s)
    ensures Stuck(s')
  {
  }

  lemma StuckNext(w: World, e: Event, w': World, p: PlanId)
    requires Next(w, e, w') && Stuck(SliceOf(w.tables, p))
    ensures Stuck(SliceOf(w'.tables, p))
  {
    hide TableEvent, SliceOf, Stuck, TradesFollow;
    match e
    case ExchangeMoves =>
    case Unanswered(_) =>
    case Sends(_, _) =>
    case _ =>
      if e.plan == p {
        StuckStep(e, p, SliceOf(w.tables, p), SliceOf(w'.tables, p), w.truth);
      }
  }

  /** REJECTED is not a state a position can be closed from, and no transition leaves it: whatever
      follows, the position stays managed, and the tables never look flat again. */
  lemma {:induction false} StuckForEver(path: seq<World>, events: seq<Event>, limits: Limits, i: nat, j: nat, p: PlanId)
    requires Path(path, events, limits) && i <= j < |path|
    requires Stuck(SliceOf(path[i].tables, p))
    ensures Stuck(SliceOf(path[j].tables, p)) && !LooksFlat(path[j].tables)
    decreases j
  {
    hide Next, Fits;
    if i < j {
      StuckForEver(path, events, limits, i, j - 1, p);
      StuckNext(path[j - 1], events[j - 1], path[j], p);
    }
    assert IsManaged(path[j].tables.positions[p].state);
  }

  /** Some continuation closes the position. */
  ghost predicate CanClose(w: World, p: PlanId, limits: Limits) {
    exists path, events :: Path(path, events, limits) && path[0] == w && PositionClosed(SliceOf(Last(path).tables, p))
  }

  lemma StuckNeverCloses(w: World, p: PlanId, limits: Limits)
    requires Stuck(SliceOf(w.tables, p))
    ensures !CanClose(w, p, limits)
  {
    hide Next, Fits;
    forall path, events | Path(path, events, limits) && path[0] == w
      ensures !PositionClosed(SliceOf(Last(path).tables, p))
    {
      StuckForEver(path, events, limits, 0, |path| - 1, p);
    }
  }

  // ----- how a position becomes stuck -----

  lemma SticksIff(e: Event, p: PlanId, s: Slice, s': Slice, truth: Truth)
    requires WellFormed(truth) && PlanInv(p, s, truth) && TableEvent(e, p, s, s', truth) && !Stuck(s)
    ensures Stuck(s') <==>
      && e.EntryRow? && e.row.raw.RawRejected?
      && s.order.Some? && s.order.value.state.CancelRequested?
      && s.position.Some? && IsManaged(s.position.value.state)
  {
  }

  /** A position becomes stuck in exactly one way: its order was asked to cancel, and the exchange
      answers with a rejected row. On a PARTIALLY_FILLED order the table refuses such a row, and
      before the first managed fill it leaves no position. */
  lemma StuckArisesIff(w: World, e: Event, w': World, p: PlanId)
    requires Good(w) && Next(w, e, w') && !Stuck(SliceOf(w.tables, p))
    ensures Stuck(SliceOf(w'.tables, p)) <==>
      && e.EntryRow? && e.plan == p && e.row.raw.RawRejected?
      && p in w.tables.orders && w.tables.orders[p].state.CancelRequested?
      && HasActivePosition(w.tables, p)
  {
    hide TableEvent, TradesFollow, Inv, Stuck, PlanInv;
    PlanPart(w, p);
    match e
    case ExchangeMoves =>
    case Unanswered(_) =>
    case Sends(_, _) =>
    case _ =>
      if e.plan == p {
        SticksIff(e, p, SliceOf(w.tables, p), SliceOf(w'.tables, p), w.truth);
      } else {
        assert SliceOf(w'.tables, p) == SliceOf(w.tables, p);
      }
  }

  // ----- which positions can be closed -----

  /** An order with a managed position is being cancelled, or it is in a closable state, or it is
      REJECTED. */
  lemma ManagedOrder(w: World, p: PlanId)
    requires Good(w) && HasActivePosition(w.tables, p)
    ensures p in w.tables.orders && p in w.tables.plans && Entry(p) in w.truth
    ensures var o := w.tables.orders[p];
      && 0 < w.truth[Entry(p)].filled <= w.truth[Entry(p)].requested == o.requested
      && (o.state.CancelRequested? || o.state.Rejected? || IsClosable(o.state))
  {
    assert PlanInv(p, SliceOf(w.tables, p), w.truth);
  }

  /** The close transaction itself goes through exactly when the position has a trade row and its order
      is neither being cancelled nor REJECTED. */
  lemma ClosesNowIff(w: World, p: PlanId, exitFilled: nat)
    requires Good(w) && HasActivePosition(w.tables, p)
    ensures p in w.tables.orders
    ensures CloseTrade(w.tables, p, exitFilled).Written? <==>
      p in w.tables.trades && !w.tables.orders[p].state.CancelRequested? && !w.tables.orders[p].state.Rejected?
  {
    ManagedOrder(w, p);
  }

  /** An id that no row of the ledger has. */
  lemma {:induction false} LongerThanAll(keys: set<FillKey>) returns (n: nat)
    ensures forall id :: ProtectiveTrade(id) in keys ==> |id| < n
    decreases |keys|
  {
    if keys == {} {
      return 0;
    }
    var k :| k in keys;
    n := LongerThanAll(keys - {k});
    if k.ProtectiveTrade? && n <= |k.id| {
      n := |k.id| + 1;
    }
  }

  lemma FreshId(keys: set<FillKey>) returns (id: string)
    ensures ProtectiveTrade(id) !in keys
  {
    var n := LongerThanAll(keys);
    id := seq(n, _ => 'x');
  }

  /** The order after a final row: FILLED stays FILLED, anything else is CANCELLED. */
  function FinalRow(o: OrderRow, filled: nat): Row {
    Row(if o.state.Filled? || o.state.PositionUnprotected? then RawFilled else RawCanceled,
        filled, Some(1.0), None, 0)
  }

  /** What the tables say about the plan after the final row. */
  function Finished(s: Slice, filled: nat): Slice
    requires s.order.Some?
  {
    var state := MapState(FinalRow(s.order.value, filled), s.order.value.requested);
    s.(plan := Some(state),
       order := Some(s.order.value.(state := state, filled := filled)),
       position := Some(PositionRow(filled, ManagedState(state, Verdict(true, ["tp"])), true, ["tp"],
                                    if s.position.Some? then s.position.value.exitFilled else 0)))
  }

  lemma FinalRowApplies(p: PlanId, s: Slice, truth: Truth)
    requires s.order.Some? && s.plan.Some? && Entry(p) in truth
    requires truth[Entry(p)].phase.Done? && truth[Entry(p)].filled > 0
    requires s.order.value.state.CancelRequested? || IsClosable(s.order.value.state)
    ensures var filled := truth[Entry(p)].filled;
      var e := EntryRow(p, FinalRow(s.order.value, filled), Verdict(true, ["tp"]));
      && TableEvent(e, p, s, Finished(s, filled), truth) && RecordsTrade(e, s)
      && IsClosable(Finished(s, filled).order.value.state)
      && IsManaged(Finished(s, filled).position.value.state)
  {
  }

  /** Enough protective fills come in, and the position is closed. */
  lemma FillsThenClose(p: PlanId, s: Slice, truth: Truth) returns (fills: seq<ProtectiveFill>, covered: Slice, closed: Slice)
    requires s.order.Some? && s.position.Some? && IsManaged(s.position.value.state) && IsClosable(s.order.value.state)
    requires s.position.value.protectiveIds != []
    ensures TableEvent(LedgersFills(p, fills), p, s, covered, truth)
    ensures TableEvent(Closes(p), p, covered, closed, truth) && PositionClosed(closed)
  {
    var id := FreshId(s.fills.Keys);
    var f := ProtectiveFill(id, s.position.value.quantity, 1.0, 0);
    fills := [f];
    assert fills[..0] == [];
    covered := s.(fills := IgnoreInsert(s.fills, fills));
    TotalUpsert(s.fills, ProtectiveTrade(id), FillRow(f.quantity, f.price, f.timestamp));
    closed := covered.(position := Some(s.position.value.(state := Closed)),
                       order := Some(s.order.value.(state := Closed)));
  }

  /** The path that closes a position: the exchange finishes the order, the agent takes the final row and
      finds protective orders, their fills cover the position, and the close goes through. A CANCELLED order
      is asked about again by `resume` only (trading_agent/demo_lifecycle.py:236), see `Recovers`. */
  lemma ClosingPath(w: World, p: PlanId, limits: Limits)
    requires Good(w) && HasActivePosition(w.tables, p)
    requires p in w.tables.orders && !w.tables.orders[p].state.Rejected?
    ensures CanClose(w, p, limits)
  {
    hide Inv, Path, Next, TableEvent, RecordsTrade, PositionClosed;
    ManagedOrder(w, p);
    var s := SliceOf(w.tables, p);
    var x := w.truth[Entry(p)];
    var truth := w.truth[Entry(p) := x.(phase := Done)];
    var traded := p in w.tables.trades;
    var w1 := World(w.tables, truth, w.sent);
    PlanPart(w, p);
    Finishes(w, p);
    FinalRowApplies(p, s, truth);
    var e2 := EntryRow(p, FinalRow(s.order.value, x.filled), Verdict(true, ["tp"]));
    var s2 := Finished(s, x.filled);
    var w2 := World(WithSlice(w.tables, p, s2, true), truth, w.sent);
    TradedStep(w.tables, w2.tables, truth, w.sent, e2, p, s2);
    var fills, s3, s4 := FillsThenClose(p, s2, truth);
    var w3 := World(WithSlice(w2.tables, p, s3, true), truth, w.sent);
    TradedStep(w2.tables, w3.tables, truth, w.sent, LedgersFills(p, fills), p, s3);
    var w4 := World(WithSlice(w3.tables, p, s4, true), truth, w.sent);
    TradedStep(w3.tables, w4.tables, truth, w.sent, Closes(p), p, s4);
    Stay(w, limits);
    var path, events := Grow([w], [], limits, ExchangeMoves, w1);
    path, events := Grow(path, events, limits, e2, w2);
    path, events := Grow(path, events, limits, LedgersFills(p, fills), w3);
    path, events := Grow(path, events, limits, Closes(p), w4);
  }

  lemma Finishes(w: World, p: PlanId)
    requires WellFormed(w.truth) && Entry(p) in w.truth
    ensures Next(w, ExchangeMoves, w.(truth := w.truth[Entry(p) := w.truth[Entry(p)].(phase := Done)]))
  {
  }

  /** A step of plan `p` after which it has a trade row. */
  lemma TradedStep(t: Tables, t': Tables, truth: Truth, sent: seq<OrderRef>, e: Event, p: PlanId, s': Slice)
    requires e.EntryRow? || e.LedgersFills? || e.Closes?
    requires e.plan == p && t' == WithSlice(t, p, s', true)
    requires p in t.trades || RecordsTrade(e, SliceOf(t, p))
    requires e.Closes? ==> p in t.trades
    requires TableEvent(e, p, SliceOf(t, p), s', truth)
    ensures Next(World(t, truth, sent), e, World(t', truth, sent))
    ensures SliceOf(t', p) == s' && p in t'.trades
  {
    hide TableEvent, SliceOf, RecordsTrade;
    WithSliceEffect(t, p, s', true);
    TableStep(t, t', truth, sent, e, p);
  }

  /** In every sound state, whether reached by a run or not: a managed position can be closed in some
      continuation exactly when its order is not REJECTED. */
  lemma CanCloseIff(w: World, p: PlanId, limits: Limits)
    requires Good(w) && HasActivePosition(w.tables, p)
    ensures p in w.tables.orders
    ensures CanClose(w, p, limits) <==> !w.tables.orders[p].state.Rejected?
  {
    hide Inv, Path;
    ManagedOrder(w, p);
    if w.tables.orders[p].state.Rejected? {
      StuckNeverCloses(w, p, limits);
    } else {
      ClosingPath(w, p, limits);
    }
  }

  /** Two lots are asked for and one is bought; the order is asked to cancel, and the exchange answers
      that it is rejected. No continuation closes the position, and FLAT is never reported. */
  lemma StuckRun() returns (run: seq<World>, events: seq<Event>, p: PlanId)
    ensures Run(run, events, LIMITS) && Stuck(SliceOf(Last(run).tables, p))
    ensures !CanClose(Last(run), p, LIMITS)
  {
    hide Path, Next, Alone, CanClose;
    p := "p";
    run, events := BoughtOneRun(p);
    var sent, truth, done := [Entry(p)], LiveEntry(p, 1), map[Entry(p) := Remote(2, 1, Done)];
    var s1 := BoughtOne().(plan := Some(CancelRequested), order := Some(OrderRow(2, 1, CancelRequested, None, 1.0)));
    AloneStep(p, BoughtOne(), s1, truth, sent, true, OrderMoves(p, CancelRequested));
    run, events := Grow(run, events, LIMITS, OrderMoves(p, CancelRequested), Alone(p, s1, truth, sent, true));
    MoveStep(p, s1, truth, done, sent, true);
    run, events := Grow(run, events, LIMITS, ExchangeMoves, Alone(p, s1, done, sent, true));
    var e := EntryRow(p, Row(RawRejected, 1, Some(1.0), None, 0), Verdict(true, []));
    var s2 := s1.(plan := Some(Rejected), order := Some(OrderRow(2, 1, Rejected, None, 1.0)));
    AloneStep(p, s1, s2, done, sent, true, e);
    run, events := Grow(run, events, LIMITS, e, Alone(p, s2, done, sent, true));
    AloneSlice(p, s2, done, sent, true);
    StuckNeverCloses(Last(run), p, LIMITS);
  }

  // ----- without a resume -----

  /** No row is read for an order that is not active: recovery, cancelling and flattening ask about active
      orders only, and `resume` asks about any. */
  ghost predicate Recovers(path: seq<World>, events: seq<Event>)
    requires |path| == |events| + 1
  {
    forall i :: 0 <= i < |events| && events[i].EntryRow? ==> HasActiveOrder(path[i].tables, events[i].plan)
  }

  /** The fill of a CANCELLED order came without a price: a position, and no trade row. */
  ghost predicate Unpriced(w: World, p: PlanId) {
    && HasActivePosition(w.tables, p) && p !in w.tables.trades
    && p in w.tables.orders && w.tables.orders[p].state.Cancelled?
  }

  lemma UnpricedNext(w: World, e: Event, w': World, p: PlanId)
    requires Next(w, e, w') && Unpriced(w, p)
    requires e.EntryRow? ==> HasActiveOrder(w.tables, e.plan)
    ensures Unpriced(w', p)
  {
    hide SliceOf, TableEvent, SameOthers, HasActivePosition, HasActiveOrder;
    match e {
      case ExchangeMoves =>
      case Unanswered(_) =>
      case Sends(_, _) =>
      case _ =>
        UnpricedTables(w.tables, e, w'.tables, p, w.truth);
    }
  }

  lemma UnpricedTables(t: Tables, e: Event, t': Tables, p: PlanId, truth: Truth)
    requires !e.ExchangeMoves? && !e.Unanswered? && !e.Sends?
    requires SameOthers(t, t', e.plan) && TradesFollow(t, e, e.plan, t')
    requires TableEvent(e, e.plan, SliceOf(t, e.plan), SliceOf(t', e.plan), truth)
    requires HasActivePosition(t, p) && p !in t.trades && p in t.orders && t.orders[p].state.Cancelled?
    requires e.EntryRow? ==> HasActiveOrder(t, e.plan)
    ensures HasActivePosition(t', p) && p !in t'.trades && p in t'.orders && t'.orders[p].state.Cancelled?
  {
    if e.plan == p {
      UnpricedStep(e, p, SliceOf(t, p), SliceOf(t', p), truth);
    } else {
      assert SliceOf(t', p) == SliceOf(t, p);
      SameSlice(t, t', p);
    }
  }

  lemma UnpricedStep(e: Event, p: PlanId, s: Slice, s': Slice, truth: Truth)
    requires TableEvent(e, p, s, s', truth) && !e.EntryRow? && !e.Closes?
    requires s.order.Some? && s.order.value.state.Cancelled? && s.position.Some? && IsManaged(s.position.value.state)
    ensures s'.order.Some? && s'.order.value.state.Cancelled? && s'.position.Some? && IsManaged(s'.position.value.state)
  {
  }

  /** Without a resume such a position is never closed. */
  lemma {:induction false} UnpricedNeverCloses(path: seq<World>, events: seq<Event>, limits: Limits, i: nat, j: nat, p: PlanId)
    requires Path(path, events, limits) && Recovers(path, events) && i <= j < |path|
    requires Unpriced(path[i], p)
    ensures Unpriced(path[j], p) && !LooksFlat(path[j].tables)
    decreases j
  {
    hide Next, Fits;
    if i < j {
      UnpricedNeverCloses(path, events, limits, i, j - 1, p);
      UnpricedNext(path[j - 1], events[j - 1], path[j], p);
    }
  }

  /** Two lots are asked for, one is bought and the rest cancelled, and the row has no average price. */
  lemma UnpricedRun() returns (run: seq<World>, events: seq<Event>, p: PlanId)
    ensures Run(run, events, LIMITS) && Unpriced(Last(run), p)
  {
    hide Path, Next, Alone;
    p := "p";
    var truth := map[Entry(p) := Remote(2, 1, Done)];
    run, events := SubmittedRun(p, Remote(2, 1, Done));
    var e := EntryRow(p, Row(RawCanceled, 1, None, None, 0), Verdict(true, ["tp"]));
    var s := Slice(Some(Cancelled), Some(OrderRow(2, 1, Cancelled, None, 1.0)),
                   Some(PositionRow(1, PartiallyFilled, true, ["tp"], 0)), [], map[]);
    AloneStep(p, Submitted2(), s, truth, [Entry(p)], false, e);
    run, events := Grow(run, events, LIMITS, e, Alone(p, s, truth, [Entry(p)], false));
    AloneParts(p, s, truth, [Entry(p)], false);
    AloneTrades(p, s, truth, [Entry(p)]);
  }

  lemma AloneTrades(p: PlanId, s: Slice, truth: Truth, sent: seq<OrderRef>)
    ensures Alone(p, s, truth, sent, false).tables.trades == map[]
  {
  }
}
