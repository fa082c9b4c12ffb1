/** The order manager: it drives the store against the exchange. Every operation keeps the protocol
    invariant, never sends an order twice, and never takes back what the tables already say. */
module OrderManagers {
  import opened Wrappers
  import opened OrderStates
  import opened Exchanges
  import opened TradeTables
  import opened Protocol
  import opened ProtocolSteps
  import opened ProtocolRuns
  import opened SliceEffects
  import opened TradeStores
  import opened ManagerRules
  import opened FlattenRules
  import opened ManagerSteps

  class OrderManager {
    const store: TradeStore
    const exchange: Exchange
    const canExit: bool
    ghost var run: seq<World>          // every world since the empty tables
    ghost var events: seq<Event>       // what led from each to the next
    ghost var limits: Limits           // the least limits that every approval so far fits in

    constructor (store: TradeStore, exchange: Exchange, canExit: bool)
      ensures this.store == store && this.exchange == exchange && this.canExit == canExit
      ensures Run(run, events, limits) && Last(run) == INITIAL_WORLD && run == [INITIAL_WORLD]
    {
      this.store, this.exchange, this.canExit := store, exchange, canExit;
      run, events, limits := [INITIAL_WORLD], [], Limits(0, 0.0);
    }

    ghost function Now(): World
      reads store, exchange
    {
      World(store.View(), exchange.truth, exchange.sent)
    }

    /** Everything the manager did so far is a run of the protocol, and it ends here. */
    ghost predicate Traced()
      reads this, store, exchange
    {
      Run(run, events, limits) && Last(run) == Now()
    }

    ghost predicate Good()
      reads this, store, exchange
    {
      && Inv(store.View(), exchange.truth, exchange.sent)
      && CancelsAfterClose(store.View(), exchange.protectionCancels)
      && CancelsAfterClose(store.View(), exchange.protectionAccepted)
      && RecordsHold(store.View(), exchange.protectionAccepted)
      && Traced()
    }

    /** The run goes on to `w`. */
    ghost method Record(e: Event, w: World)
      requires Run(run, events, limits) && Next(Last(run), e, w) && !e.Approves?
      modifies this
      ensures Run(run, events, limits) && Last(run) == w
      ensures events == old(events) + [e] && old(run) <= run
    {
      hide Path, Next;
      run, events := Grow(run, events, limits, e, w);
    }

    /** The same for an approval, which the limits have to make room for. */
    ghost method RecordApproval(e: Event, w: World)
      requires Run(run, events, limits) && Next(Last(run), e, w) && e.Approves?
      modifies this
      ensures Run(run, events, limits) && Last(run) == w
      ensures events == old(events) + [e] && old(run) <= run
    {
      hide Next;
      assert |run| == |events| + 1;
      var t := Last(run).tables;
      var open, reserved := |SlotPlans(t)| + 1, ReservedNotional(t.orders) + NewNotional(e);
      WiderPath(run, events, limits, open, reserved);
      limits := Wider(limits, open, reserved);
      run, events := Grow(run, events, limits, e, w);
    }

    /** The tables were `t0`, and one event made them what they are. */
    ghost method Wrote(t0: Tables, e: Event)
      requires Run(run, events, limits) && Last(run) == World(t0, exchange.truth, exchange.sent)
      requires CancelsAfterClose(t0, exchange.protectionCancels) && Advances(t0, store.View())
      requires CancelsAfterClose(t0, exchange.protectionAccepted)
      requires Inv(store.View(), exchange.truth, exchange.sent)
      requires RecordsHold(store.View(), exchange.protectionAccepted)
      requires Next(World(t0, exchange.truth, exchange.sent), e, Now()) && !e.Approves?
      modifies this
      ensures Good() && old(run) <= run
    {
      hide Inv, Forward, Next, Path, CancelsAfterClose, RecordsHold;
      CancelsAdvance(t0, store.View(), exchange.protectionCancels);
      CancelsAdvance(t0, store.View(), exchange.protectionAccepted);
      Record(e, Now());
    }

    lemma GoodIsInv()
      requires Good()
      ensures Inv(store.View(), exchange.truth, exchange.sent)
    {
    }

    lemma GoodIsWellFormed()
      requires Good()
      ensures WellFormed(exchange.truth)
    {
    }

    lemma RunEndsNow()
      requires Good()
      ensures |run| > 0 && run[|run| - 1].tables == store.View() && run[|run| - 1].sent == exchange.sent
    {
    }

    lemma StaysPut(w: World, r: OrderRef)
      ensures Next(w, Unanswered(r), w)
    {
    }

    // ----- entries -----

    /** The writes that follow a row with a managed fill: the final order state, the position and
        the trade. The order is in the state the row just gave it, so none of them is refused. */
    method WriteManagedFill(p: PlanId, lifecycle: OrderState, managed: OrderState, row: Row, v: Verdict)
      requires p in store.orders && Allowed(store.orders[p].state, lifecycle)
      modifies store
      ensures SameOthers(old(store.View()), store.View(), p)
      ensures
        var s, s' := SliceOf(old(store.View()), p), SliceOf(store.View(), p);
        && s'.order == Some(s.order.value.(state := lifecycle))
        && s'.position == Some(PositionRow(row.filled, managed, v.protected, v.ids,
                                           if s.position.Some? then s.position.value.exitFilled else 0))
        && s'.attempts == s.attempts && s'.fills == s.fills
        && s'.plan == (if s.plan.Some? then Some(lifecycle) else None)
      ensures store.attempts == old(store.attempts)
      ensures store.trades.Keys ==
        old(store.trades.Keys) + (if row.average.Some? && p in old(store.plans) then {p} else {})
      ensures store.trades ==
        if row.average.Some? && p in old(store.plans) then TradesWith(old(store.trades), p, row.average.value, row.filled)
        else old(store.trades)
    {
      ghost var t0 := store.View();
      TransitionEffect(t0, p, lifecycle, NO_PATCH);
      var ok := store.Transition(p, lifecycle, NO_PATCH);
      ghost var t1 := store.View();
      PositionEffect(t1, p, row.filled, managed, v);
      store.PutPosition(p, row.filled, managed, v);
      ghost var t2 := store.View();
      SameOthersTransitive(t0, t1, t2, p);
      if row.average.Some? {
        EntryFillEffect(t2, p, row.average.value, row.filled);
        EntryFillTrades(t2, p, row.average.value, row.filled);
      }
      if row.average.Some? && p in store.plans {
        store.PutEntryFill(p, row.average.value, row.filled);
      }
    }

    /** The writes of `_apply_remote_order`. Either the transition table refuses the first write and
        nothing changes, or every follow-up write is legal and order and position show the row. */
    method WriteRemoteOrder(p: PlanId, row: Row, v: Verdict) returns (r: EntryResult)
      requires p in store.orders
      modifies store
      ensures SameOthers(old(store.View()), store.View(), p)
      ensures r.EntryRaised? <==>
        !Allowed(old(store.orders)[p].state, MapState(row, old(store.orders)[p].requested))
      ensures r.EntryRaised? ==> store.View() == old(store.View())
      ensures !r.EntryRaised? ==>
        && Applied(SliceOf(old(store.View()), p), SliceOf(store.View(), p), row, v)
        && r.EntrySeen? && p in store.orders && r.state == store.orders[p].state
        && r.managed == (if HasManagedFill(MapState(row, store.orders[p].requested), row.filled)
                         then Some(ManagedState(MapState(row, store.orders[p].requested), v)) else None)
      ensures store.attempts == old(store.attempts)
      ensures store.trades.Keys == old(store.trades.Keys) +
        (if !r.EntryRaised? && row.average.Some? && p in old(store.plans) &&
            HasManagedFill(MapState(row, old(store.orders)[p].requested), row.filled) then {p} else {})
      ensures !r.EntryRaised? && p in old(store.plans) ==>
        store.trades == if row.average.Some? && HasManagedFill(MapState(row, old(store.orders)[p].requested), row.filled)
                        then TradesWith(old(store.trades), p, row.average.value, row.filled) else old(store.trades)
    {
      var local := store.orders[p];
      var state := MapState(row, local.requested);
      var orderId := if row.orderId.Some? then row.orderId else local.orderId;
      ghost var t0 := store.View();
      var ok := store.Transition(p, state, Patch(Some(row.filled), Some(orderId)));
      if !ok {
        return EntryRaised;
      }
      TransitionEffect(t0, p, state, Patch(Some(row.filled), Some(orderId)));
      ghost var t1 := store.View();
      var managed: Option<OrderState> := None;
      if HasManagedFill(state, row.filled) {
        managed := Some(ManagedState(state, v));
        WriteManagedFill(p, LifecycleState(state, row.filled, v), managed.value, row, v);
        SameOthersTransitive(t0, t1, store.View(), p);
      }
      r := EntrySeen(store.orders[p].state, managed);
    }

    /** Take one row of plan `p`'s entry order as the exchange reports it. */
    method ApplyRemoteOrder(p: PlanId, row: Row, v: Verdict) returns (r: EntryResult)
      requires Good()
      requires p in store.orders && Reports(exchange.truth, Entry(p), row)
      modifies this, store
      ensures Good() && old(run) <= run && Advances(old(store.View()), store.View())
      ensures SameOthers(old(store.View()), store.View(), p)
      ensures r.EntryRaised? <==>
        !Allowed(old(store.orders)[p].state, MapState(row, old(store.orders)[p].requested))
      ensures r.EntryRaised? ==> store.View() == old(store.View())
      ensures !r.EntryRaised? ==>
        && Applied(SliceOf(old(store.View()), p), SliceOf(store.View(), p), row, v)
        && r.EntrySeen? && p in store.orders && r.state == store.orders[p].state
        && ShownAs(SliceOf(old(store.View()), p), SliceOf(store.View(), p), row, store.orders[p].requested, v, r)
        && (LeavesPosition(row, store.orders[p].requested) ==> OrderShown(row, store.orders[p].requested, v, r.state))
        && store.trades == TradesShown(old(store.trades), p, row, store.orders[p].requested)
    {
      hide Inv, Forward, Applied, Next, Path, Reports, CancelsAfterClose, RecordsHold, TradesWith, LeavesPosition;
      ghost var t0 := store.View();
      AdvancesReflexive(t0);
      OrderHasPlan(t0, exchange.truth, exchange.sent, p);
      RowWithin(t0, exchange.truth, exchange.sent, p, row);
      r := WriteRemoteOrder(p, row, v);
      if !r.EntryRaised? {
        AppliedShows(SliceOf(t0, p), SliceOf(store.View(), p), row, v, r);
        LeavesWhen(row, t0.orders[p].requested);
        AppliedStep(t0, store.View(), exchange.truth, exchange.sent, p, row, v);
        RecordsStay(t0, store.View(), exchange.protectionAccepted);
        Wrote(t0, EntryRow(p, row, v));
      }
    }

    /** A transition that carries no row. */
    method Move(p: PlanId, state: OrderState, orderId: Option<Option<string>>, ghost refused: bool) returns (ok: bool)
      requires Good()
      requires p in store.orders ==> MoveStarts(store.orders[p].state, state)
      requires refused && p in store.orders ==>
        state.Rejected? && IsRefused(exchange.truth, Entry(p), store.orders[p].requested)
      modifies this, store
      ensures Good() && old(run) <= run && Advances(old(store.View()), store.View())
      ensures SameOthers(old(store.View()), store.View(), p)
      ensures ok <==> p in old(store.orders) && Allowed(old(store.orders)[p].state, state)
      ensures !ok ==> store.View() == old(store.View())
      ensures ok ==>
        && Moved(SliceOf(old(store.View()), p), SliceOf(store.View(), p), state)
        && p in store.orders
        && store.orders[p] == old(store.orders)[p].(
             state := state, orderId := if orderId.Some? then orderId.value else old(store.orders)[p].orderId)
      ensures store.trades == old(store.trades)
    {
      hide Inv, Forward, Moved, Next, Path, SameOthers, CancelsAfterClose, RecordsHold;
      ghost var t0 := store.View();
      ok := store.Transition(p, state, Patch(None, orderId));
      MovedStep(t0, store.View(), exchange.truth, exchange.sent, p, state, orderId, refused);
      if ok {
        RecordsStay(t0, store.View(), exchange.protectionAccepted);
        Wrote(t0, if refused then RefusesEntry(p) else OrderMoves(p, state));
      }
    }

    /** Ask the exchange about plan `p`'s entry and apply what it says. A completed reconcile leaves
        the order with exactly the quantity the exchange has filled, and an order that was asked to
        cancel never goes back to being merely open. */
    method ReconcilePlan(p: PlanId) returns (r: EntryResult)
      requires Good()
      modifies this, store, exchange
      ensures Good() && old(run) <= run && Advances(old(store.View()), store.View())
      ensures SameOthers(old(store.View()), store.View(), p)
      ensures exchange.sent == old(exchange.sent) && exchange.replies == old(exchange.replies) && exchange.cancels == old(exchange.cancels) && exchange.accepted == old(exchange.accepted)
      ensures exchange.fillReads == old(exchange.fillReads)
      ensures r.OrderMissing? <==> p !in old(store.orders)
      ensures r.OrderMissing? ==> exchange.lookups == old(exchange.lookups)
      ensures p in old(store.orders) ==> p in store.orders && exists row: Option<Row> ::
        && AskedFor(old(exchange.lookups), exchange.lookups, Entry(p), row)
        && ReconciledAs(old(store.orders)[p], store.orders[p], row, r)
      ensures r.OrderMissing? || r.EntryUnseen? || r.EntryRaised? ==> store.View() == old(store.View())
      ensures old(exchange.lookups) <= exchange.lookups
      ensures p in old(store.orders) ==> AskedSince(old(exchange.lookups), exchange.lookups, Entry(p))
      ensures r.EntryUnseen? || r.OrderMissing? <==> Silent(old(exchange.lookups), exchange.lookups)
      ensures r.EntryRaised? ==> RowRefused(store.View(), p, old(exchange.lookups), exchange.lookups)
      ensures r.EntrySeen? ==> p in old(store.orders) && exists row, v ::
        AnsweredWith(row, v, SliceOf(old(store.View()), p), SliceOf(store.View(), p), old(store.orders)[p].requested, p, r,
                     old(exchange.lookups), exchange.lookups, old(exchange.verdicts), exchange.verdicts, old(store.trades), store.trades)
      ensures p in old(store.orders) ==> p in store.orders
      ensures r.EntryUnseen? ==> p in store.orders && r.state == store.orders[p].state
      ensures r.EntrySeen? ==>
        && r.state == store.orders[p].state
        && store.orders[p].filled == FilledOf(exchange.truth, Entry(p))
        && (r.state.Cancelled? && !old(store.orders)[p].state.Cancelled? ==>
              Entry(p) in exchange.truth && exchange.truth[Entry(p)].phase.Done?)
      ensures p in old(store.orders) && IsCancelOutcome(old(store.orders)[p].state) ==>
        IsCancelOutcome(store.orders[p].state)
    {
      hide Inv, Forward, Advances, SliceOf, ReconciledAs, MapState, Allowed, Applied, Evolves, ShownAs, OrderShown, Reports, Silent,
           AskedSince, RowRefused;
      AdvancesReflexive(store.View());
      SameOthersReflexive(store.View(), p);
      NothingAsked(exchange.lookups);
      if p !in store.orders {
        return OrderMissing;
      }
      var local := store.orders[p];
      var row := LookupTwice(Entry(p), local.orderId);
      AskedAtLeast(old(exchange.lookups), exchange.lookups, Entry(p), row);
      AskedFirstIs(old(exchange.lookups), exchange.lookups, exchange.lookups, Entry(p), row);
      UnseenIsReconciled(local);
      if row.None? {
        return EntryUnseen(local.state);
      }
      ghost var v;
      r, v := TakeEntryRow(p, row.value);
      if r.EntryRaised? {
        RefusalSeen(store.View(), p, old(exchange.lookups), exchange.lookups, row.value, r);
      }
      assert r.EntrySeen? ==>
        AnsweredWith(row.value, v, SliceOf(old(store.View()), p), SliceOf(store.View(), p), local.requested, p, r,
                     old(exchange.lookups), exchange.lookups, old(exchange.verdicts), exchange.verdicts, old(store.trades), store.trades);
    }

    /** A row of the entry order came back: ask for the protection of what it leaves, apply both, and do not
        forget a cancel that was asked for. */
    method TakeEntryRow(p: PlanId, row: Row) returns (r: EntryResult, ghost v: Verdict)
      requires Good()
      requires p in store.orders && Reports(exchange.truth, Entry(p), row)
      modifies this, store, exchange`verdicts
      ensures Good() && old(run) <= run && Advances(old(store.View()), store.View())
      ensures SameOthers(old(store.View()), store.View(), p)
      ensures p in store.orders && ReconciledAs(old(store.orders)[p], store.orders[p], Some(row), r)
      ensures r.EntryRaised? || r.EntrySeen?
      ensures r.EntryRaised? ==> store.View() == old(store.View()) && exchange.verdicts == old(exchange.verdicts)
      ensures r.EntrySeen? ==>
        && ShownAs(SliceOf(old(store.View()), p), SliceOf(store.View(), p), row, old(store.orders)[p].requested, v, r)
        && (IsFullFill(row, old(store.orders)[p].requested) && row.filled > 0 ==>
              OrderShown(row, old(store.orders)[p].requested, v, r.state))
        && exchange.verdicts ==
             old(exchange.verdicts) + (if LeavesPosition(row, old(store.orders)[p].requested) then [(p, v)] else [])
        && store.trades == TradesShown(old(store.trades), p, row, old(store.orders)[p].requested)
      ensures r.EntrySeen? ==>
        && r.state == store.orders[p].state
        && store.orders[p].filled == FilledOf(exchange.truth, Entry(p))
        && (r.state.Cancelled? && !old(store.orders)[p].state.Cancelled? ==>
              Entry(p) in exchange.truth && exchange.truth[Entry(p)].phase.Done?)
      ensures IsCancelOutcome(old(store.orders)[p].state) ==> IsCancelOutcome(store.orders[p].state)
    {
      hide Inv, Forward, Advances, SliceOf, ReconciledAs, MapState, Allowed, Applied, Evolves, ShownAs, OrderShown, SameOthers,
           IsFullFill, LeavesPosition, TradesShown;
      AdvancesReflexive(store.View());
      SameOthersReflexive(store.View(), p);
      ghost var t0 := store.View();
      var local := store.orders[p];
      var verdict := Verdict(false, []);
      if LeavesPosition(row, local.requested) && Allowed(local.state, MapState(row, local.requested)) {
        verdict := exchange.ProtectionVerdict(p);
      }
      v := verdict;
      r := ApplyRemoteOrder(p, row, verdict);
      if r.EntryRaised? {
        RaisedIsReconciled(local, row);
        return;
      }
      if IsFullFill(row, local.requested) && row.filled > 0 {
        FullLeaves(row, local.requested);
      }
      ghost var t1 := store.View();
      AppliedIsReconciled(t0, t1, p, row, v, r);
      if local.state.CancelRequested? && IsMerelyOpen(r.state) {
        ShownIsOpen(row, local.requested, v, r.state);
        var ok := Move(p, CancelRequested, None, false);
        MerelyOpenCancels(r.state);
        ShownMoves(SliceOf(t0, p), SliceOf(t1, p), SliceOf(store.View(), p), row, local.requested, v, r);
        SameOthersTransitive(t0, t1, store.View(), p);
        AdvancesTransitive(t0, t1, store.View());
        r := EntrySeen(CancelRequested, r.managed);
      }
    }

    /** Lookup by client id, then by exchange id when one is known. */
    method LookupTwice(r: OrderRef, orderId: Option<string>) returns (row: Option<Row>)
      requires Good()
      modifies this, exchange
      ensures Good() && old(run) <= run && exchange.sent == old(exchange.sent) && exchange.replies == old(exchange.replies)
      ensures exchange.protectionCancels == old(exchange.protectionCancels)
      ensures Evolves(old(exchange.truth), exchange.truth)
      ensures row.Some? ==> Reports(exchange.truth, r, row.value)
      ensures exchange.cancels == old(exchange.cancels) && exchange.accepted == old(exchange.accepted)
      ensures exchange.verdicts == old(exchange.verdicts) && exchange.fillReads == old(exchange.fillReads)
      ensures exchange.protectionAccepted == old(exchange.protectionAccepted)
      ensures AskedFor(old(exchange.lookups), exchange.lookups, r, row)
      ensures row.None? && orderId.Some? ==> |exchange.lookups| == |old(exchange.lookups)| + 2
      ensures orderId.None? ==> |exchange.lookups| == |old(exchange.lookups)| + 1
    {
      hide Inv, Next, Path, Reports, Evolves, Good;
      ghost var truth0 := exchange.truth;
      row := LookupOnce(r);
      if row.None? && orderId.Some? {
        ghost var truth1 := exchange.truth;
        row := LookupOnce(r);
        EvolvesTransitive(truth0, truth1, exchange.truth);
      }
      if row.None? {
        RecordUnanswered(r);
      }
    }

    method LookupOnce(r: OrderRef) returns (row: Option<Row>)
      requires Good()
      modifies this, exchange`truth, exchange`lookups
      ensures Good() && old(run) <= run
      ensures Evolves(old(exchange.truth), exchange.truth)
      ensures row.Some? ==> Reports(exchange.truth, r, row.value)
      ensures exchange.lookups == old(exchange.lookups) + [Asked(r, row)]
    {
      hide Inv, Next, Path, Reports, Evolves, CancelsAfterClose, RecordsHold;
      ghost var truth0 := exchange.truth;
      GoodIsWellFormed();
      row := exchange.Lookup(r);
      EvolveStep(store.View(), truth0, exchange.truth, exchange.sent);
      Record(ExchangeMoves, Now());
    }

    ghost method RecordUnanswered(r: OrderRef)
      requires Good()
      modifies this
      ensures Good() && old(run) <= run
    {
      hide Inv, Next, Path, CancelsAfterClose, RecordsHold;
      StaysPut(Now(), r);
      Record(Unanswered(r), Now());
    }

    /** Up to four reconciles after a cancel request, stopping at a final state that leaves no
        unprotected position. However they end, the cancel is not forgotten. */
    method ReconcileCancelRequest(p: PlanId) returns (r: EntryResult, ghost said: seq<EntryResult>)
      requires Good()
      requires p in store.orders && IsCancelOutcome(store.orders[p].state)
      modifies this, store, exchange
      ensures Good() && old(run) <= run && Advances(old(store.View()), store.View())
      ensures SameOthers(old(store.View()), store.View(), p)
      ensures exchange.sent == old(exchange.sent) && exchange.replies == old(exchange.replies)
      ensures exchange.cancels == old(exchange.cancels) && exchange.accepted == old(exchange.accepted)
      ensures p in store.orders && IsCancelOutcome(store.orders[p].state)
      ensures EntryState(r).Some? && (EntryState(r).value == store.orders[p].state || EntryState(r).value.CancelRequested?)
      ensures old(exchange.lookups) <= exchange.lookups
      ensures AskedSince(old(exchange.lookups), exchange.lookups, Entry(p))
      ensures Silent(old(exchange.lookups), exchange.lookups) ==> store.orders[p] == old(store.orders)[p]
      ensures Pursues(|old(exchange.lookups)|, |exchange.lookups|, EntryState(r).Some? && IsTerminal(EntryState(r).value))
      ensures TurnsUntil(said, EndsCancel, |old(exchange.lookups)|, |exchange.lookups|)
      ensures r == if TellsTheEnd(said[|said| - 1]) then said[|said| - 1] else EntrySeen(CancelRequested, None)
    {
      hide Inv, Forward, Advances, SliceOf, SameOthers, Silent, AskedSince, Good, Moved;
      ghost var t0 := store.View();
      r, said := PursueCancel(p);
      if LeftUnprotected(r) || (EntryState(r).Some? && (EntryState(r).value.PositionUnprotected? || IsTerminal(EntryState(r).value))) {
        return;
      }
      var state := store.orders[p].state;
      if IsMerelyOpen(state) || state.CancelRequested? {
        ghost var t1 := store.View();
        var ok := Move(p, CancelRequested, None, false);
        AdvancesTransitive(t0, t1, store.View());
        SameOthersTransitive(t0, t1, store.View(), p);
      }
      r := EntrySeen(CancelRequested, None);
    }

    /** The turns of it. */
    method PursueCancel(p: PlanId) returns (r: EntryResult, ghost said: seq<EntryResult>)
      requires Good()
      requires p in store.orders && IsCancelOutcome(store.orders[p].state)
      modifies this, store, exchange
      ensures Good() && old(run) <= run && Advances(old(store.View()), store.View())
      ensures SameOthers(old(store.View()), store.View(), p)
      ensures exchange.sent == old(exchange.sent) && exchange.replies == old(exchange.replies)
      ensures exchange.cancels == old(exchange.cancels) && exchange.accepted == old(exchange.accepted)
      ensures p in store.orders && IsCancelOutcome(store.orders[p].state)
      ensures EntryState(r).Some? ==> EntryState(r).value == store.orders[p].state
      ensures old(exchange.lookups) <= exchange.lookups
      ensures AskedSince(old(exchange.lookups), exchange.lookups, Entry(p))
      ensures Silent(old(exchange.lookups), exchange.lookups) ==> store.orders[p] == old(store.orders)[p]
      ensures TurnsUntil(said, EndsCancel, |old(exchange.lookups)|, |exchange.lookups|) && said[|said| - 1] == r
    {
      hide Inv, Forward, Advances, SliceOf, ReconciledAs, SameOthers, Silent, AskedSince, RowRefused, AnsweredWith, Good;
      ghost var t0, lookups0 := store.View(), exchange.lookups;
      NothingAsked(lookups0);
      AdvancesReflexive(t0);
      SameOthersReflexive(t0, p);
      r, said := EntryRaised, [];
      for i := 0 to TARGETED_LOOKUPS
        invariant |said| == i && (forall k :: 0 <= k < i ==> !EndsCancel(said[k])) && (i > 0 ==> said[i - 1] == r)
        invariant Good() && old(run) <= run && Advances(t0, store.View()) && SameOthers(t0, store.View(), p)
        invariant exchange.sent == old(exchange.sent) && exchange.replies == old(exchange.replies)
        invariant exchange.cancels == old(exchange.cancels) && exchange.accepted == old(exchange.accepted)
        invariant p in store.orders && IsCancelOutcome(store.orders[p].state)
        invariant |lookups0| + i <= |exchange.lookups| <= |lookups0| + 2 * i
        invariant EntryState(r).Some? ==> EntryState(r).value == store.orders[p].state
        invariant lookups0 <= exchange.lookups && (i > 0 ==> AskedSince(lookups0, exchange.lookups, Entry(p)))
        invariant Silent(lookups0, exchange.lookups) ==> store.orders[p] == old(store.orders)[p]
      {
        ghost var t1, lookups1 := store.View(), exchange.lookups;
        r := ReconcilePlan(p);
        said := said + [r];
        AskedLater(lookups0, lookups1, exchange.lookups, Entry(p));
        SilentJoin(lookups0, lookups1, exchange.lookups);
        AdvancesTransitive(t0, t1, store.View());
        SameOthersTransitive(t0, t1, store.View(), p);
        if EntryState(r).Some? && IsTerminal(EntryState(r).value) && !LeftUnprotected(r) {
          return;
        }
      }
    }

    /** `cancel_pending_entries`: block what was never sent, ask the exchange to cancel the rest. An
        entry reported as blocked locally was never sent; any other state that is reported is stored. */
    method CancelPendingEntries() returns (results: seq<CancelResult>)
      requires Good()
      modifies this, store, exchange
      ensures Good() && old(run) <= run && Advances(old(store.View()), store.View())
      ensures exchange.sent == old(exchange.sent) && exchange.replies == old(exchange.replies)
      ensures old(exchange.cancels) <= exchange.cancels && old(exchange.lookups) <= exchange.lookups
      ensures forall k :: 0 <= k < |results| ==> TrueResult(results[k], store.orders, exchange.sent)
      ensures forall p :: HasActiveOrder(old(store.View()), p) ==>
        Pursued(p, old(store.orders)[p], results, store.orders, old(exchange.cancels), exchange.cancels,
                old(exchange.lookups), exchange.lookups)
    {
      hide SliceOf, Forward, Inv, Advances, Pursued, SameOthers, TrueResult, IsReserving, IsActive, CancelProgress, TurnPursues;
      ghost var t0, cancels0, lookups0 := store.View(), exchange.cancels, exchange.lookups;
      var originals := store.orders;
      var ids := store.ActiveOrders();
      results := [];
      AdvancesReflexive(t0);
      CancelsBegin(t0, ids, exchange.sent, cancels0, lookups0);
      for i := 0 to |ids|
        invariant Good() && old(run) <= run && Advances(t0, store.View())
        invariant exchange.sent == old(exchange.sent) && exchange.replies == old(exchange.replies)
        invariant cancels0 <= exchange.cancels && lookups0 <= exchange.lookups
        invariant CancelProgress(t0, store.View(), ids, i, results, exchange.sent, cancels0, exchange.cancels, lookups0, exchange.lookups)
      {
        ghost var t1, results1, cancels1, lookups1 := store.View(), results, exchange.cancels, exchange.lookups;
        CancelNext(t0, t1, ids, i, results, exchange.sent, cancels0, exchange.cancels, lookups0, exchange.lookups);
        var r := CancelOnePending(ids[i], originals[ids[i]]);
        AdvancesTransitive(t0, t1, store.View());
        if r.Some? {
          results := results + [r.value];
        }
        CancelTurn(t0, t1, store.View(), ids, i, r, results1, exchange.sent, cancels0, cancels1, exchange.cancels,
                   lookups0, lookups1, exchange.lookups);
      }
      CancelsEnd(t0, store.View(), ids, results, exchange.sent, cancels0, exchange.cancels, lookups0, exchange.lookups);
    }

    /** One turn of the loop: `original` is the row the list of active orders was built from. */
    method CancelOnePending(p: PlanId, original: OrderRow) returns (r: Option<CancelResult>)
      requires Good()
      requires p in store.orders && store.orders[p] == original
      modifies this, store, exchange
      ensures Good() && old(run) <= run && Advances(old(store.View()), store.View())
      ensures SameOthers(old(store.View()), store.View(), p)
      ensures exchange.sent == old(exchange.sent) && exchange.replies == old(exchange.replies)
      ensures old(exchange.cancels) <= exchange.cancels && old(exchange.lookups) <= exchange.lookups
      ensures r.Some? ==> r.value.plan == p && TrueResult(r.value, store.orders, exchange.sent)
      ensures p in store.orders && TurnPursues(p, original, store.orders[p], r, old(exchange.cancels), exchange.cancels,
                                               old(exchange.lookups), exchange.lookups)
    {
      hide Inv, Forward, Advances, SliceOf, SameOthers, ReconciledAs, Allowed, Applied, Evolves, Silent, AskedSince, RowRefused,
           AnsweredWith, Good, TurnsUntil, TellsTheEnd, CancelAsked, CancelFollowed;
      ghost var t0, lookups0, cancels0 := store.View(), exchange.lookups, exchange.cancels;
      AdvancesReflexive(t0);
      SameOthersReflexive(t0, p);
      if !IsReserving(original.state) {
        return None;
      }
      if original.state.Approved? {
        r := Block(p);
        return;
      }
      if original.state.SubmissionUnknown? {
        var seen := ReconcilePlan(p);
      }
      ghost var t1, lookups1 := store.View(), exchange.lookups;
      AdvancesReflexive(t1);
      SameOthersReflexive(t1, p);
      var local := store.orders[p];
      if !IsReserving(local.state) {
        return None;
      }
      if local.state.CancelRequested? {
        var reconciled;
        ghost var said;
        reconciled, said := ReconcileCancelRequest(p);
        r := Some(CancelReported(p, EntryState(reconciled)));
        AskedLater(lookups0, lookups1, exchange.lookups, Entry(p));
      } else if local.orderId.None? {
        r := Some(CancelReported(p, Some(local.state)));
      } else {
        var result := CancelSubmitted(p);
        r := Some(result);
        CancelSent(cancels0, exchange.cancels, p);
      }
      if original.state.SubmissionUnknown? {
        AskedEarlier(lookups0, lookups1, exchange.lookups, Entry(p));
      }
      AdvancesTransitive(t0, t1, store.View());
      SameOthersTransitive(t0, t1, store.View(), p);
    }

    /** An order that was never sent is blocked. */
    method Block(p: PlanId) returns (r: Option<CancelResult>)
      requires Good()
      requires p in store.orders && store.orders[p].state.Approved?
      modifies this, store
      ensures Good() && old(run) <= run && Advances(old(store.View()), store.View())
      ensures SameOthers(old(store.View()), store.View(), p)
      ensures r == Some(BlockedLocally(p))
      ensures p in store.orders && store.orders[p] == old(store.orders)[p].(state := Rejected)
      ensures Entry(p) !in exchange.sent
    {
      hide Inv, Forward, Advances, SliceOf, SameOthers;
      BlockedIsUnsent(store.View(), exchange.truth, exchange.sent, p);
      var blocked := Move(p, Rejected, None, false);
      r := Some(BlockedLocally(p));
    }

    /** Ask the exchange to cancel an order it has an id for, record the request, and follow it up. When the
        request is not taken, or the order can no longer be cancelled, nothing changes. */
    method CancelSubmitted(p: PlanId) returns (r: CancelResult)
      requires Good()
      requires p in store.orders && store.orders[p].orderId.Some?
      modifies this, store, exchange
      ensures Good() && old(run) <= run && Advances(old(store.View()), store.View())
      ensures SameOthers(old(store.View()), store.View(), p)
      ensures exchange.sent == old(exchange.sent) && exchange.replies == old(exchange.replies)
      ensures exchange.cancels == old(exchange.cancels) + [Entry(p)]
      ensures old(exchange.lookups) <= exchange.lookups
      ensures r.plan == p && TrueResult(r, store.orders, exchange.sent)
      ensures exchange.accepted == old(exchange.accepted) || exchange.accepted == old(exchange.accepted) + [Entry(p)]
      ensures if exchange.accepted != old(exchange.accepted) && MayBeCancelled(old(store.orders)[p].state) then
          CancelFollowed(p, store.orders, old(exchange.lookups), exchange.lookups)
        else
          && r == CancelReported(p, Some(old(store.orders)[p].state)) && store.View() == old(store.View())
          && exchange.lookups == old(exchange.lookups)
    {
      hide Inv, Forward, Advances, SliceOf, SameOthers, Evolves, Silent, AskedSince, TurnsUntil, TellsTheEnd, Good, Moved;
      ghost var t0 := store.View();
      AdvancesReflexive(t0);
      SameOthersReflexive(t0, p);
      var local := store.orders[p];
      var accepted := CancelAtExchange(Entry(p));
      if !accepted {
        return CancelReported(p, Some(local.state));
      }
      var moved := Move(p, CancelRequested, None, false);
      CancellableStates(local.state);
      if !moved {
        return CancelReported(p, Some(local.state));
      }
      ghost var t1 := store.View();
      var reconciled;
      ghost var said;
      reconciled, said := ReconcileCancelRequest(p);
      AdvancesTransitive(t0, t1, store.View());
      SameOthersTransitive(t0, t1, store.View(), p);
      r := CancelReported(p, EntryState(reconciled));
    }

    /** `cancel`: only an order the exchange has an id for can be cancelled; once the request is
        taken and recorded the order never becomes merely open again. */
    method Cancel(p: PlanId) returns (r: EntryResult)
      requires Good()
      modifies this, store, exchange
      ensures Good() && old(run) <= run && Advances(old(store.View()), store.View())
      ensures SameOthers(old(store.View()), store.View(), p)
      ensures exchange.sent == old(exchange.sent) && exchange.replies == old(exchange.replies)
      ensures r.OrderMissing? <==> p !in old(store.orders) || old(store.orders)[p].orderId.None?
      ensures exchange.cancels == old(exchange.cancels) + if r.OrderMissing? then [] else [Entry(p)]
      ensures exchange.accepted == old(exchange.accepted) || exchange.accepted == old(exchange.accepted) + [Entry(p)]
      ensures r.OrderMissing? ==> exchange.accepted == old(exchange.accepted)
      ensures r.OrderMissing? || r.EntryRaised? ==> store.View() == old(store.View()) && exchange.lookups == old(exchange.lookups)
      ensures !r.OrderMissing? ==>
        (r.EntryRaised? <==>
           exchange.accepted == old(exchange.accepted) || !MayBeCancelled(old(store.orders)[p].state))
      ensures !(r.OrderMissing? || r.EntryRaised?) ==>
        && CancelFollowed(p, store.orders, old(exchange.lookups), exchange.lookups)
        && EntryState(r).Some? && (EntryState(r).value == store.orders[p].state || EntryState(r).value.CancelRequested?)
    {
      hide Inv, Forward, SliceOf, SameOthers, Silent, AskedSince, Advances, TurnsUntil, TellsTheEnd, Good, Moved;
      ghost var t0 := store.View();
      AdvancesReflexive(t0);
      SameOthersReflexive(t0, p);
      if p !in store.orders || store.orders[p].orderId.None? {
        return OrderMissing;
      }
      var accepted := CancelAtExchange(Entry(p));
      if !accepted {
        return EntryRaised;
      }
      CancellableStates(store.orders[p].state);
      var moved := Move(p, CancelRequested, None, false);
      if !moved {
        return EntryRaised;
      }
      ghost var t1 := store.View();
      ghost var said;
      r, said := ReconcileCancelRequest(p);
      AdvancesTransitive(t0, t1, store.View());
      SameOthersTransitive(t0, t1, store.View(), p);
    }

    method CancelAtExchange(r: OrderRef) returns (ok: bool)
      requires Good()
      modifies this, exchange
      ensures Good() && old(run) <= run && exchange.sent == old(exchange.sent) && exchange.replies == old(exchange.replies)
      ensures exchange.lookups == old(exchange.lookups)
      ensures exchange.protectionCancels == old(exchange.protectionCancels)
      ensures exchange.cancels == old(exchange.cancels) + [r]
      ensures exchange.accepted == if ok then old(exchange.accepted) + [r] else old(exchange.accepted)
      ensures Evolves(old(exchange.truth), exchange.truth)
    {
      hide Inv, Next, Path, Evolves, SliceOf, PositionClosed;
      ghost var truth0 := exchange.truth;
      GoodIsWellFormed();
      ok := exchange.CancelOrder(r);
      EvolveStep(store.View(), truth0, exchange.truth, exchange.sent);
      Record(ExchangeMoves, Now());
    }

    // ----- protective exits -----

    /** `recover_active_orders`: reconcile every active order, then every managed position; `mid` is what the tables
        say in between. A refused row, or a close that does not go through, ends it early, and nothing else does. */
    method RecoverActiveOrders() returns (raised: bool, results: seq<ExitResult>, ghost mid: Tables)
      requires Good()
      modifies this, store, exchange
      ensures Good() && old(run) <= run && Advances(old(store.View()), store.View())
      ensures exchange.sent == old(exchange.sent) && exchange.replies == old(exchange.replies)
      ensures old(exchange.lookups) <= exchange.lookups && exchange.cancels == old(exchange.cancels)
      ensures exists k :: 0 <= k < |run| && |old(run)| - 1 <= k && run[k].tables == mid
      ensures !raised ==> forall p :: HasActiveOrder(old(store.View()), p) ==>
        AskedSince(old(exchange.lookups), exchange.lookups, Entry(p))
      ensures !raised ==> forall p :: HasActiveOrder(old(store.View()), p) ==>
        p in mid.orders && EntryReconciled(p, old(store.orders)[p], mid.orders[p], old(exchange.lookups), exchange.lookups)
      ensures !raised ==> forall p :: HasActivePosition(old(store.View()), p) ==> HasResult(results, p)
      ensures forall k :: 0 <= k < |results| ==>
        ExitShown(mid, store.View(), results[k], old(exchange.fillReads), exchange.fillReads)
      ensures raised ==>
        || (exists p :: RowRefused(store.View(), p, old(exchange.lookups), exchange.lookups))
        || (exists p :: StuckOpen(store.View(), p))
    {
      hide Inv, Forward, Advances, SliceOf, EntryReconciled, ExitShown, StuckOpen, RowRefused, HasResult, AskedSince, Good,
           HasActivePosition, HasActiveOrder, OpenRemains;
      ghost var t0 := store.View();
      results := [];
      raised := RecoverOrders();
      mid := store.View();
      RunEndsNow();
      if raised {
        return;
      }
      ghost var last, before := |run| - 1, run;
      results, raised := ReconcileManagedPositions();
      assert run[last] == before[last];
      OpenRemain(t0, mid);
      AdvancesTransitive(t0, mid, store.View());
    }

    /** Every active order in turn; a refused row ends it early. */
    method RecoverOrders() returns (raised: bool)
      requires Good()
      modifies this, store, exchange
      ensures Good() && old(run) <= run && Advances(old(store.View()), store.View())
      ensures exchange.sent == old(exchange.sent) && exchange.replies == old(exchange.replies)
      ensures exchange.fillReads == old(exchange.fillReads) && exchange.cancels == old(exchange.cancels)
      ensures old(exchange.lookups) <= exchange.lookups
      ensures !raised ==> OpenRemains(old(store.View()), store.View())
      ensures !raised ==> forall p :: HasActiveOrder(old(store.View()), p) ==>
        && AskedSince(old(exchange.lookups), exchange.lookups, Entry(p))
        && p in store.orders
        && EntryReconciled(p, old(store.orders)[p], store.orders[p], old(exchange.lookups), exchange.lookups)
      ensures raised ==> exists p :: RowRefused(store.View(), p, old(exchange.lookups), exchange.lookups)
    {
      hide Inv, Forward, Advances, SliceOf, ReconciledAs, AnsweredWith, RowRefused, Silent, AskedSince, Good, HasActivePosition,
           SameOthers, EntryReconciled, AskedFor, IsActive, IsManaged, OpenRemains;
      ghost var t0, lookups0, run0 := store.View(), exchange.lookups, run;
      var ids := store.ActiveOrders();
      AdvancesReflexive(t0);
      assert forall k :: 0 <= k < |ids| ==> ids[k] in ids && HasActiveOrder(t0, ids[k]);
      OpenRemain(t0, t0);
      for i := 0 to |ids|
        invariant Good() && run0 <= run && Advances(t0, store.View())
        invariant exchange.sent == old(exchange.sent) && exchange.replies == old(exchange.replies)
        invariant exchange.fillReads == old(exchange.fillReads) && exchange.cancels == old(exchange.cancels)
        invariant forall k :: 0 <= k < |ids| ==> ids[k] in store.orders
        invariant lookups0 <= exchange.lookups
        invariant forall k :: 0 <= k < i ==> AskedSince(lookups0, exchange.lookups, Entry(ids[k]))
        invariant forall j :: i <= j < |ids| ==> SliceOf(store.View(), ids[j]) == SliceOf(t0, ids[j])
        invariant forall k :: 0 <= k < i ==>
          EntryReconciled(ids[k], t0.orders[ids[k]], store.orders[ids[k]], lookups0, exchange.lookups)
        invariant OpenRemains(t0, store.View())
      {
        ghost var lookups1, t1 := exchange.lookups, store.View();
        var r := ReconcilePlan(ids[i]);
        AdvancesTransitive(t0, t1, store.View());
        OrdersStay(t1, store.View());
        AskedAll(lookups0, lookups1, exchange.lookups, ids, i);
        if r.EntryRaised? {
          RefusedSince(store.View(), ids[i], lookups0, lookups1, exchange.lookups);
          return true;
        }
        OpenAfter(t0, t1, store.View(), ids[i], r, lookups1, exchange.lookups);
        ReconciledAll(t0, t1, store.View(), ids, i, r, lookups0, lookups1, exchange.lookups);
      }
      raised := false;
    }

    /** `reconcile_managed_positions`: close positions whose protective orders have sold them. What
        each result says is so, and it ends early only at a covered position that cannot be closed. */
    method ReconcileManagedPositions() returns (results: seq<ExitResult>, raised: bool)
      requires Good()
      modifies this, store, exchange`fillReads
      ensures Good() && old(run) <= run && Advances(old(store.View()), store.View())
      ensures forall k :: 0 <= k < |results| ==>
        ExitShown(old(store.View()), store.View(), results[k], old(exchange.fillReads), exchange.fillReads)
      ensures !raised ==> forall p :: HasActivePosition(old(store.View()), p) ==> HasResult(results, p)
      ensures raised ==> exists p :: StuckOpen(store.View(), p)
    {
      hide SliceOf, Forward, Inv, Advances, ExitShown, HasActivePosition, HasResult, SameOthers, StuckOpen, Good, ReadAs;
      ghost var t0, reads0 := store.View(), exchange.fillReads;
      var ids := store.ManagedPositions();
      results, raised := [], false;
      AdvancesReflexive(t0);
      assert forall k :: 0 <= k < |ids| ==> ids[k] in ids;
      for i := 0 to |ids|
        invariant Good() && old(run) <= run && Advances(t0, store.View())
        invariant reads0 <= exchange.fillReads
        invariant forall j :: i <= j < |ids| ==> SliceOf(store.View(), ids[j]) == SliceOf(t0, ids[j])
        invariant |results| == i
        invariant forall k :: 0 <= k < i ==>
          results[k].plan == ids[k] && ExitShown(t0, store.View(), results[k], reads0, exchange.fillReads)
      {
        ghost var t1, reads1 := store.View(), exchange.fillReads;
        StillOpen(t0, t1, ids[i]);
        var r := ReconcileExit(ids[i]);
        AdvancesTransitive(t0, t1, store.View());
        LoopFrame(t0, t1, store.View(), ids, i, results, reads0, reads1, exchange.fillReads);
        if r.None? {
          raised := true;
          return;
        }
        ShownFrom(t0, t1, store.View(), r.value, reads0, reads1, exchange.fillReads);
        results := results + [r.value];
      }
      AllHaveResults(t0, ids, results);
    }

    /** One managed position; None when the close transaction raised. */
    method ReconcileExit(p: PlanId) returns (r: Option<ExitResult>)
      requires Good() && HasActivePosition(store.View(), p)
      modifies this, store, exchange`fillReads
      ensures Good() && old(run) <= run && Advances(old(store.View()), store.View())
      ensures SameOthers(old(store.View()), store.View(), p)
      ensures r.Some? ==> r.value.plan == p
      ensures old(exchange.fillReads) <= exchange.fillReads
      ensures r.Some? ==> ExitShown(old(store.View()), store.View(), r.value, old(exchange.fillReads), exchange.fillReads)
      ensures r.None? ==> StuckOpen(store.View(), p)
      ensures r == Some(Unlinked(p)) <==> old(store.positions)[p].protectiveIds == []
      ensures r == Some(Unlinked(p)) ==> exchange.fillReads == old(exchange.fillReads) && store.View() == old(store.View())
      ensures r != Some(Unlinked(p)) ==>
        && |exchange.fillReads| == |old(exchange.fillReads)| + 1
        && ReadAs(old(store.View()), store.View(), p, exchange.fillReads[|old(exchange.fillReads)|], r)
    {
      hide Inv, Forward, Advances, SliceOf, SameOthers, Next, Path, CancelsAfterClose, RecordsHold, ExitShown, ReadAs, CanCloseNow,
           Total, IgnoreInsert, ClosedNow, PartiallyExited, Ledgered;
      ghost var t0, reads0 := store.View(), exchange.fillReads;
      AdvancesReflexive(t0);
      SameOthersReflexive(t0, p);
      var position := store.positions[p];
      if position.protectiveIds == [] {
        ShownUnlinked(t0, p, reads0);
        return Some(Unlinked(p));
      }
      var found, complete := exchange.ExitFills(p);
      if !complete {
        ShownIncomplete(t0, p, reads0, found);
        return Some(HistoryIncomplete(p));
      }
      store.PutProtectiveFills(p, found);
      LedgeredStep(t0, store.View(), exchange.truth, exchange.sent, p, found);
      RecordsStay(t0, store.View(), exchange.protectionAccepted);
      Wrote(t0, LedgersFills(p, found));
      ghost var t1 := store.View();
      var quantity := store.ConfirmedExitQuantity(p);
      if quantity < position.quantity {
        if store.fills[p] != map[] {
          MarkPartial(p, quantity);
          AdvancesTransitive(t0, t1, store.View());
          SameOthersTransitive(t0, t1, store.View(), p);
        }
        ShownPartial(t0, t1, store.View(), p, reads0, found);
        return Some(PartialExit(p, quantity));
      }
      var ok := CloseNow(p, quantity);
      AdvancesTransitive(t0, t1, store.View());
      SameOthersTransitive(t0, t1, store.View(), p);
      ShownClose(t0, t1, store.View(), p, reads0, found, ok);
      r := if ok then Some(ExitClosed(p)) else None;
    }

    method MarkPartial(p: PlanId, quantity: nat)
      requires Good() && HasActivePosition(store.View(), p)
      modifies this, store
      ensures Good() && old(run) <= run && Advances(old(store.View()), store.View())
      ensures SameOthers(old(store.View()), store.View(), p)
      ensures PartiallyExited(SliceOf(old(store.View()), p), SliceOf(store.View(), p))
      ensures store.View() == old(store.View()).(positions := store.positions)
      ensures store.positions ==
        old(store.positions)[p := old(store.positions)[p].(state := ExitPartiallyFilled, exitFilled := quantity)]
    {
      hide Inv, Forward, Next, Path, PartiallyExited, SameOthers, SliceOf, CancelsAfterClose, RecordsHold;
      ghost var t0 := store.View();
      store.MarkPartial(p, quantity);
      PartialStep(t0, store.View(), exchange.truth, exchange.sent, p, quantity);
      RecordsStay(t0, store.View(), exchange.protectionAccepted);
      Wrote(t0, MarksPartial(p));
    }

    /** The close transaction; the caller has checked that the ledger covers the position. */
    method CloseNow(p: PlanId, quantity: nat) returns (ok: bool)
      requires Good() && HasActivePosition(store.View(), p)
      requires store.positions[p].quantity <= Total(FillsOf(store.View(), p))
      modifies this, store
      ensures Good() && old(run) <= run && Advances(old(store.View()), store.View())
      ensures SameOthers(old(store.View()), store.View(), p)
      ensures ok <==> CanCloseNow(old(store.View()), p)
      ensures !ok ==> store.View() == old(store.View())
      ensures ok ==> ClosedNow(SliceOf(old(store.View()), p), SliceOf(store.View(), p))
      ensures ok ==> store.View() == CloseTrade(old(store.View()), p, quantity).tables
    {
      hide Inv, Forward, Next, Path, ClosedNow, SameOthers, SliceOf, CancelsAfterClose, RecordsHold;
      ghost var t0 := store.View();
      ok := store.Close(p, quantity);
      ClosesWhen(t0, p, quantity);
      AdvancesReflexive(t0);
      SameOthersReflexive(t0, p);
      if ok {
        ClosedStep(t0, store.View(), exchange.truth, exchange.sent, p, quantity);
        RecordsStay(t0, store.View(), exchange.protectionAccepted);
        Wrote(t0, Closes(p));
      }
    }

    // ----- flatten attempts -----

    /** Rewrite attempt `n` of plan `p` without claiming more than the exchange confirmed: nothing, or that
        it refused the attempt. */
    method PatchAttempt(p: PlanId, n: nat, a: AttemptRow, ghost refused: bool)
      requires Good()
      requires 1 <= n <= |AttemptsOf(store.View(), p)|
      requires a.requested == AttemptsOf(store.View(), p)[n - 1].requested
      requires
        if refused then
          && IsRefusal(AttemptsOf(store.View(), p)[n - 1], a)
          && IsRefused(exchange.truth, Exit(p, n), AttemptsOf(store.View(), p)[n - 1].requested)
        else ClaimsNothing(SliceOf(store.View(), p), a, n)
      requires forall id :: IsCancelled(a.cleanup, id) ==> (p, id) in exchange.protectionAccepted
      modifies this, store
      ensures Good() && old(run) <= run && Advances(old(store.View()), store.View())
      ensures SameOthers(old(store.View()), store.View(), p)
      ensures SliceOf(store.View(), p) ==
        SliceOf(old(store.View()), p).(attempts := AttemptsOf(old(store.View()), p)[n - 1 := a])
      ensures store.View() == PutAttempt(old(store.View()), p, n, a)
    {
      hide Inv, Forward, Next, Path, SameOthers, SliceOf, ClaimsNothing, IsRefusal, IsRefused, CancelsAfterClose, RecordsHold;
      ghost var t0 := store.View();
      store.UpdateAttempt(p, n, a);
      PatchedStep(t0, store.View(), exchange.truth, exchange.sent, p, n, a, refused);
      RecordsPatched(t0, p, n, a, exchange.protectionAccepted);
      Wrote(t0, if refused then RefusesExit(p, n) else RewritesAttempt(p, n));
    }

    /** Take a row of attempt `n`: the attempt shows it, and a priced fill enters the ledger. */
    method TakeExitRow(p: PlanId, n: nat, row: Row)
      requires Good()
      requires 1 <= n <= |AttemptsOf(store.View(), p)|
      requires Reports(exchange.truth, Exit(p, n), row)
      modifies this, store
      ensures Good() && old(run) <= run && Advances(old(store.View()), store.View())
      ensures SameOthers(old(store.View()), store.View(), p)
      ensures Observed(SliceOf(old(store.View()), p), SliceOf(store.View(), p), n, row)
      ensures FillsOf(store.View(), p) == LedgerWith(FillsOf(old(store.View()), p), n, row)
      ensures store.View() == old(store.View()).(attempts := store.attempts, fills := store.fills)
    {
      hide Inv, Forward, Next, Path, Reports, Observe, CancelsAfterClose, RecordsHold;
      ghost var t0 := store.View();
      var a := store.attempts[p][n - 1];
      RecordsOf(t0, p, n, exchange.protectionAccepted);
      KeepsCleanup(a, row);
      RecordsPatched(t0, p, n, Observe(a, row), exchange.protectionAccepted);
      store.UpdateAttempt(p, n, Observe(a, row));
      AttemptEffect(t0, p, n, Observe(a, row));
      ghost var t1 := store.View();
      if row.filled > 0 && row.average.Some? {
        store.PutFill(p, FlattenFill(n), FillRow(row.filled, row.average.value, row.time));
        FillEffect(t1, p, FlattenFill(n), FillRow(row.filled, row.average.value, row.time));
        SameOthersTransitive(t0, t1, store.View(), p);
      }
      ObservedStep(t0, store.View(), exchange.truth, exchange.sent, p, n, row);
      RecordsStay(t1, store.View(), exchange.protectionAccepted);
      Wrote(t0, ExitRow(p, n, row));
    }

    /** `reconcile_flatten_intent`: an unfinished cleanup is retried, a FILLED attempt is left alone, and
        the exchange is asked about any other. A close happens only when the ledger covers the
        position exactly and every other attempt has stopped; without `allowClose` nothing but the
        attempt, its ledger row and the partial-exit mark can change. */
    method ReconcileFlattenIntent(p: PlanId, n: nat, allowClose: bool)
      returns (r: FlattenResult, ghost seen: Option<Row>)
      requires Good()
      requires n >= 1
      modifies this, store, exchange
      ensures Good() && old(run) <= run && Advances(old(store.View()), store.View())
      ensures SameOthers(old(store.View()), store.View(), p)
      ensures exchange.sent == old(exchange.sent) && exchange.replies == old(exchange.replies)
      ensures old(exchange.lookups) <= exchange.lookups
      ensures old(exchange.protectionCancels) <= exchange.protectionCancels
      ensures QuietKept(AttemptsOf(old(store.View()), p), AttemptsOf(store.View(), p), n)
      ensures !r.FlattenRaised?
      ensures |AttemptsOf(store.View(), p)| == |AttemptsOf(old(store.View()), p)|
      ensures !allowClose ==> TouchedOnly(SliceOf(old(store.View()), p), SliceOf(store.View(), p), n)
      ensures !allowClose && FlattenState(r).Some? ==>
        n <= |AttemptsOf(store.View(), p)| && AttemptsOf(store.View(), p)[n - 1].state == FlattenState(r).value
      ensures r.AttemptReported? && seen.Some? ==> RowTaken(old(store.View()), store.View(), p, n, seen.value)
      ensures r.CleanedUp? ==> PositionClosed(SliceOf(store.View(), p))
      ensures PositionClosed(SliceOf(store.View(), p)) && !PositionClosed(SliceOf(old(store.View()), p)) ==>
        && Total(FillsOf(store.View(), p)) == SliceOf(store.View(), p).position.value.quantity
        && OthersQuiet(AttemptsOf(store.View(), p), n)
      ensures |AttemptsOf(old(store.View()), p)| < n ==>
        r.NoAttempt? && store.View() == old(store.View()) && exchange.lookups == old(exchange.lookups)
      ensures n <= |AttemptsOf(old(store.View()), p)| ==>
        var before, after := AttemptsOf(old(store.View()), p)[n - 1], AttemptsOf(store.View(), p)[n - 1];
        && (IsAskable(before.state) ==>
              && AskAnswer(old(store.View()), store.View(), p, n, allowClose, seen, r)
              && AskedFirst(old(exchange.lookups), exchange.lookups, Exit(p, n), seen)
              && AskedSince(old(exchange.lookups), exchange.lookups, Exit(p, n)))
        && (before.state == Remotely(Filled) ==>
              && r == AttemptReported(before.state) && store.View() == old(store.View())
              && exchange.lookups == old(exchange.lookups))
        && (before.state.CleanupIncomplete? ==>
              && !IsAskable(after.state)
              && SliceOf(store.View(), p).position == SliceOf(old(store.View()), p).position
              && exchange.lookups == old(exchange.lookups) && exchange.cancels == old(exchange.cancels)
              && store.View() == old(store.View()).(attempts := store.attempts)
              && if PositionClosed(SliceOf(old(store.View()), p)) then
                   && r.CleanedUp? && CleanupDone(SliceOf(old(store.View()), p), SliceOf(store.View(), p), n, r.complete)
                   && CleanupTried(old(store.View()), p, n, old(exchange.protectionCancels), exchange.protectionCancels)
                 else r.ReconciliationRequired? && store.View() == old(store.View()))
      ensures r.CleanedUp? && !PositionClosed(SliceOf(old(store.View()), p)) ==>
        CleanedAfterClose(store.View(), p, n, r.complete, exchange.protectionCancels, exchange.protectionAccepted)
      ensures Silent(old(exchange.lookups), exchange.lookups) && !PositionClosed(SliceOf(old(store.View()), p)) ==>
        store.View() == old(store.View())
      ensures allowClose && ToClose(store.View(), p) ==>
        Silent(old(exchange.lookups), exchange.lookups) && store.View() == old(store.View())
      ensures !allowClose ==>
        && store.orders == old(store.orders) && store.trades == old(store.trades)
        && exchange.cancels == old(exchange.cancels) && exchange.accepted == old(exchange.accepted)
      ensures old(exchange.cancels) <= exchange.cancels
      decreases if allowClose then 2 else 0, 1
    {
      hide Inv, Forward, Advances, SliceOf, SameOthers, TouchedOnly, QuietKept, PositionClosed, IsAskable, CleanupTried,
           CleanupDone, CancelTried, OthersQuiet, RowTaken, AskedSince, AskAnswer, AskedFirst, CleanedAfterClose, ToClose, Silent;
      seen := None;
      NothingAsked(exchange.lookups);
      ghost var t0 := store.View();
      AdvancesReflexive(t0);
      SameOthersReflexive(t0, p);
      Untouched(SliceOf(t0, p), AttemptsOf(t0, p), n);
      if p !in store.attempts || |store.attempts[p]| < n {
        AttemptsMissing(t0, p);
        return NoAttempt, None;
      }
      AttemptsPresent(t0, p);
      var a := store.attempts[p][n - 1];
      AttemptKinds(a.state);
      if a.state.CleanupIncomplete? {
        r := CleanupFlattenProtection(p, n);
        CleanedAttempt(t0, store.View(), p, n, r);
        if r.CleanedUp? {
          ClosedIsDone(store.View(), p);
          CleanupTriedNow(t0, p, n, old(exchange.protectionCancels), exchange.protectionCancels);
        }
        return r, None;
      }
      if a.state == Remotely(Filled) {
        return AttemptReported(a.state), None;
      }
      r, seen := AskAttempt(p, n, allowClose);
      UnseenChangesNothing(t0, store.View(), p, n, allowClose, seen, r);
      AnswerCloses(t0, store.View(), p, n, allowClose, seen, r);
      if !allowClose {
        AnswerTouches(t0, store.View(), p, n, seen, r);
      }
    }

    /** The exchange is asked about attempt `n`, and what it says is recorded. */
    method AskAttempt(p: PlanId, n: nat, allowClose: bool) returns (r: FlattenResult, ghost seen: Option<Row>)
      requires Good()
      requires 1 <= n <= |AttemptsOf(store.View(), p)|
      modifies this, store, exchange
      ensures Good() && old(run) <= run && Advances(old(store.View()), store.View())
      ensures SameOthers(old(store.View()), store.View(), p)
      ensures exchange.sent == old(exchange.sent) && exchange.replies == old(exchange.replies)
      ensures old(exchange.lookups) <= exchange.lookups
      ensures AskedSince(old(exchange.lookups), exchange.lookups, Exit(p, n))
      ensures AskedFirst(old(exchange.lookups), exchange.lookups, Exit(p, n), seen)
      ensures seen.None? <==> Silent(old(exchange.lookups), exchange.lookups)
      ensures old(exchange.protectionCancels) <= exchange.protectionCancels
      ensures QuietKept(AttemptsOf(old(store.View()), p), AttemptsOf(store.View(), p), n)
      ensures |AttemptsOf(store.View(), p)| == |AttemptsOf(old(store.View()), p)|
      ensures AskAnswer(old(store.View()), store.View(), p, n, allowClose, seen, r)
      ensures allowClose && seen.Some? ==> !ToClose(store.View(), p)
      ensures r.CleanedUp? ==>
        CleanedAfterClose(store.View(), p, n, r.complete, exchange.protectionCancels, exchange.protectionAccepted)
      ensures !allowClose ==>
        && exchange.cancels == old(exchange.cancels) && exchange.accepted == old(exchange.accepted)
      ensures old(exchange.cancels) <= exchange.cancels
      decreases if allowClose then 2 else 0, 0
    {
      hide Inv, Forward, Advances, SliceOf, SameOthers, TouchedOnly, AskedSince, AskedFor, QuietKept, Observe, OthersQuiet,
           PositionClosed, Evolves, RowEffect, CoveredEnd, LedgerWith, AskedFirst, Silent, ToClose, CleanedAfterClose,
           Good, Reports, RowTaken;
      ghost var t0 := store.View();
      AdvancesReflexive(t0);
      SameOthersReflexive(t0, p);
      Untouched(SliceOf(t0, p), AttemptsOf(t0, p), n);
      var a := store.attempts[p][n - 1];
      var row := LookupTwice(Exit(p, n), a.orderId);
      seen := row;
      AskedAtLeast(old(exchange.lookups), exchange.lookups, Exit(p, n), row);
      AskedFirstIs(old(exchange.lookups), exchange.lookups, exchange.lookups, Exit(p, n), row);
      ghost var lookups1 := exchange.lookups;
      if row.None? {
        return AttemptReported(a.state), None;
      }
      var covered := RecordExitRow(p, n, row.value);
      ghost var t1 := store.View();
      RowTouches(t0, t1, p, n, row.value);
      RowShows(t0, t1, p, n, row.value);
      TouchedKeepsQuiet(t0, t1, p, n);
      if covered && allowClose {
        r := CloseCovered(p, n);
        AskedFirstIs(old(exchange.lookups), lookups1, exchange.lookups, Exit(p, n), row);
        AskedEarlier(old(exchange.lookups), lookups1, exchange.lookups, Exit(p, n));
        QuietTransitive(AttemptsOf(t0, p), AttemptsOf(t1, p), AttemptsOf(store.View(), p), n);
        AdvancesTransitive(t0, t1, store.View());
        SameOthersTransitive(t0, t1, store.View(), p);
        AnswerEnds(t0, t1, store.View(), p, n, row.value, r);
      } else {
        var state := store.attempts[p][n - 1].state;
        var unpriced := row.value.average.None?;
        r := if state == Remotely(Filled) && !unpriced && !covered
             then ReconciliationRequired else AttemptReported(state);
      }
      if allowClose {
        AnswerSettles(t0, store.View(), p, n, row.value, r);
      }
    }

    /** Take a row of attempt `n` and mark the position partially exited when the ledger does not
        cover it yet; `covered` says that an open position is now covered. */
    method RecordExitRow(p: PlanId, n: nat, row: Row) returns (covered: bool)
      requires Good()
      requires 1 <= n <= |AttemptsOf(store.View(), p)|
      requires Reports(exchange.truth, Exit(p, n), row)
      modifies this, store
      ensures Good() && old(run) <= run && Advances(old(store.View()), store.View())
      ensures SameOthers(old(store.View()), store.View(), p)
      ensures RowEffect(old(store.View()), store.View(), p, n, row)
      ensures covered <==> Covers(old(store.View()), p, LedgerWith(FillsOf(old(store.View()), p), n, row))
    {
      hide Inv, Forward, Advances, SameOthers, Path, Next, CancelsAfterClose, RecordsHold, Observe, LedgerWith;
      ghost var t0 := store.View();
      TakeExitRow(p, n, row);
      ghost var t1 := store.View();
      var confirmed := store.ConfirmedExitQuantity(p);
      covered := p in store.positions && IsManaged(store.positions[p].state) && store.positions[p].quantity <= confirmed;
      if p in store.positions && IsManaged(store.positions[p].state) && 0 < confirmed < store.positions[p].quantity {
        MarkPartial(p, confirmed);
        AdvancesTransitive(t0, t1, store.View());
        SameOthersTransitive(t0, t1, store.View(), p);
      }
    }

    /** The ledger covers the position: stop every other attempt, then close. */
    method CloseCovered(p: PlanId, n: nat) returns (r: FlattenResult)
      requires Good()
      requires Covers(store.View(), p, FillsOf(store.View(), p)) && 1 <= n <= |AttemptsOf(store.View(), p)|
      modifies this, store, exchange
      ensures Good() && old(run) <= run && Advances(old(store.View()), store.View())
      ensures SameOthers(old(store.View()), store.View(), p)
      ensures exchange.sent == old(exchange.sent) && exchange.replies == old(exchange.replies)
      ensures old(exchange.lookups) <= exchange.lookups && old(exchange.cancels) <= exchange.cancels
      ensures old(exchange.protectionCancels) <= exchange.protectionCancels
      ensures QuietKept(AttemptsOf(old(store.View()), p), AttemptsOf(store.View(), p), n)
      ensures |AttemptsOf(store.View(), p)| == |AttemptsOf(old(store.View()), p)|
      ensures CoveredEnd(old(store.View()), store.View(), p, n, AttemptsOf(old(store.View()), p)[n - 1], r)
      ensures OthersQuiet(AttemptsOf(old(store.View()), p), n) ==>
        && FillsOf(store.View(), p) == FillsOf(old(store.View()), p)
        && exchange.lookups == old(exchange.lookups) && exchange.cancels == old(exchange.cancels)
      ensures StopsTried(AttemptsOf(old(store.View()), p), AttemptsOf(store.View(), p), n, p, old(exchange.cancels),
                         exchange.cancels, old(exchange.lookups), exchange.lookups)
      ensures r.CleanedUp? ==>
        CleanedAfterClose(store.View(), p, n, r.complete, exchange.protectionCancels, exchange.protectionAccepted)
      decreases 1, 2
    {
      hide Inv, Forward, Advances, SliceOf, SameOthers, PositionClosed, QuietKept, OthersQuiet, QuietUpTo, StopsTried, CoveredEnd,
           CanCloseNow, CloseEnd, CleanedAfterClose, Total, RecordsHold, CancelsAfterClose, Path, Next, ClaimsNothing, FillsOf, Run;
      ghost var t0 := store.View();
      SameOthersReflexive(t0, p);
      var stopped := StopOthers(p, n);
      ghost var t2 := store.View();
      StillOpenParts(t2, p);
      LedgerGrows(t0, t2, p);
      SameClosable(t0, t2, p);
      if !stopped {
        OthersStillActive(t0, t2, p, n);
        return OthersActive;
      }
      AdvancesReflexive(t2);
      RecordsOf(t2, p, n, exchange.protectionAccepted);
      var confirmed := store.ConfirmedExitQuantity(p);
      if confirmed > store.positions[p].quantity {
        var failed := store.attempts[p][n - 1].(state := ReconciliationFailed);
        FailureAllowed(t2, p, n);
        PatchAttempt(p, n, failed, false);
        ExceedsEnds(t0, t2, p, n);
        r := ExitExceedsPosition;
      } else {
        r := CloseFlattenPosition(p, Some(n));
        ClosesEnd(t0, t2, store.View(), p, n, r);
      }
      OthersAsBefore(AttemptsOf(t0, p), AttemptsOf(t2, p), AttemptsOf(store.View(), p), n);
      StopsTriedStill(AttemptsOf(t0, p), AttemptsOf(t2, p), AttemptsOf(store.View(), p), n, p, old(exchange.cancels),
                      exchange.cancels, old(exchange.lookups), exchange.lookups);
      AdvancesTransitive(t0, t2, store.View());
      SameOthersTransitive(t0, t2, store.View(), p);
    }

    /** Cancel every other attempt that may still sell; false when one of them did not stop. */
    method StopOthers(p: PlanId, n: nat) returns (stopped: bool)
      requires Good()
      requires Covers(store.View(), p, FillsOf(store.View(), p)) && 1 <= n <= |AttemptsOf(store.View(), p)|
      modifies this, store, exchange
      ensures Good() && old(run) <= run && Advances(old(store.View()), store.View())
      ensures SameOthers(old(store.View()), store.View(), p)
      ensures exchange.sent == old(exchange.sent) && exchange.replies == old(exchange.replies)
      ensures old(exchange.lookups) <= exchange.lookups && old(exchange.cancels) <= exchange.cancels
      ensures old(exchange.protectionCancels) <= exchange.protectionCancels
      ensures Covers(store.View(), p, FillsOf(store.View(), p))
      ensures store.orders == old(store.orders) && store.trades == old(store.trades)
      ensures store.positions[p].quantity == old(store.positions)[p].quantity
      ensures |AttemptsOf(store.View(), p)| == |AttemptsOf(old(store.View()), p)|
      ensures AttemptsOf(store.View(), p)[n - 1] == AttemptsOf(old(store.View()), p)[n - 1]
      ensures QuietKept(AttemptsOf(old(store.View()), p), AttemptsOf(store.View(), p), n)
      ensures stopped <==> OthersQuiet(AttemptsOf(store.View(), p), n)
      ensures OthersQuiet(AttemptsOf(old(store.View()), p), n) ==>
        && store.View() == old(store.View())
        && exchange.lookups == old(exchange.lookups) && exchange.cancels == old(exchange.cancels)
      ensures StopsTried(AttemptsOf(old(store.View()), p), AttemptsOf(store.View(), p), n, p, old(exchange.cancels),
                         exchange.cancels, old(exchange.lookups), exchange.lookups)
      decreases 1, 1
    {
      hide Inv, Forward, Advances, SliceOf, SameOthers, TouchedOnly, QuietKept, IsQuietAttempt, QuietUpTo, OthersQuiet, Covers,
           StopTried, StopsTried, TriedUpTo, IsFinalAttempt, IsStopping, RecordsHold, CancelsAfterClose, Path, Next, Total, FillsOf, Good;
      ghost var t0 := store.View();
      ghost var count := |AttemptsOf(t0, p)|;
      ghost var cancels0, lookups0 := exchange.cancels, exchange.lookups;
      AdvancesReflexive(t0);
      SameOthersReflexive(t0, p);
      Untouched(SliceOf(t0, p), AttemptsOf(t0, p), n);
      NoneQuiet(AttemptsOf(t0, p), n);
      CoversOpen(t0, p);
      TriedNone(AttemptsOf(t0, p), n, p, cancels0, lookups0);
      for m := 1 to |store.attempts[p]| + 1
        invariant Good() && old(run) <= run && Advances(t0, store.View()) && SameOthers(t0, store.View(), p)
        invariant exchange.sent == old(exchange.sent) && exchange.replies == old(exchange.replies)
        invariant lookups0 <= exchange.lookups && cancels0 <= exchange.cancels
        invariant old(exchange.protectionCancels) <= exchange.protectionCancels
        invariant QuietKept(AttemptsOf(t0, p), AttemptsOf(store.View(), p), n)
        invariant |AttemptsOf(store.View(), p)| == count
        invariant Covers(store.View(), p, FillsOf(store.View(), p))
        invariant store.orders == old(store.orders) && store.trades == old(store.trades)
        invariant p in t0.positions && p in store.positions && store.positions[p].quantity == t0.positions[p].quantity
        invariant forall i :: 0 <= i < count && (i == n - 1 || m - 1 <= i) ==> AttemptsOf(store.View(), p)[i] == AttemptsOf(t0, p)[i]
        invariant QuietUpTo(AttemptsOf(store.View(), p), m - 1, n)
        invariant OthersQuiet(AttemptsOf(t0, p), n) ==> store.View() == t0 && exchange.lookups == lookups0 && exchange.cancels == cancels0
        invariant TriedUpTo(AttemptsOf(t0, p), n, m - 1, p, cancels0, exchange.cancels, lookups0, exchange.lookups)
      {
        ghost var t1, cancels1, lookups1 := store.View(), exchange.cancels, exchange.lookups;
        if m != n && !IsQuietAttempt(store.attempts[p][m - 1].state) {
          NotAllQuiet(AttemptsOf(t0, p), n, m);
          var cancelled := CancelFlattenAttempt(p, m);
          AdvancesTransitive(t0, t1, store.View());
          SameOthersTransitive(t0, t1, store.View(), p);
          GoodIsInv();
          CoversStays(t1, store.View(), exchange.truth, exchange.sent, p, m);
          CoversOpen(store.View(), p);
          TouchedRows(t1, store.View(), p, m);
          QuietThrough(AttemptsOf(t0, p), AttemptsOf(t1, p), AttemptsOf(store.View(), p), n, m);
          StopsLonger(AttemptsOf(t0, p), n, m, p, cancels0, cancels1, exchange.cancels, lookups0, lookups1, exchange.lookups);
          if FlattenState(cancelled).None? || !IsFinalAttempt(FlattenState(cancelled).value) {
            NotStopped(AttemptsOf(t1, p)[m - 1].state, AttemptsOf(store.View(), p)[m - 1].state);
            NotAllQuiet(AttemptsOf(store.View(), p), n, m);
            StopsUpTo(AttemptsOf(t0, p), AttemptsOf(store.View(), p), n, m, p, cancels0, exchange.cancels, lookups0, exchange.lookups);
            return false;
          }
          FinalIsQuiet(FlattenState(cancelled).value);
          QuietOneMore(AttemptsOf(t1, p), AttemptsOf(store.View(), p), m, n);
        } else {
          TriedSkips(AttemptsOf(t0, p), n, m, p, cancels0, cancels1, lookups0, lookups1);
          QuietOneMore(AttemptsOf(t1, p), AttemptsOf(t1, p), m, n);
        }
      }
      AllQuiet(AttemptsOf(store.View(), p), n);
      StopsAll(AttemptsOf(t0, p), AttemptsOf(store.View(), p), n, p, cancels0, exchange.cancels, lookups0, exchange.lookups);
      stopped := true;
    }

    /** Ask the exchange to stop attempt `m`, or keep asking about one already asked to stop. One that the
        exchange was asked to stop is over afterwards, or known to be asked; without an id, or when the request
        is not taken, nothing changes. */
    method CancelFlattenAttempt(p: PlanId, m: nat) returns (r: FlattenResult)
      requires Good()
      requires 1 <= m <= |AttemptsOf(store.View(), p)|
      requires !IsQuietAttempt(AttemptsOf(store.View(), p)[m - 1].state)
      modifies this, store, exchange
      ensures Good() && old(run) <= run && Advances(old(store.View()), store.View())
      ensures SameOthers(old(store.View()), store.View(), p)
      ensures exchange.sent == old(exchange.sent) && exchange.replies == old(exchange.replies)
      ensures old(exchange.lookups) <= exchange.lookups
      ensures old(exchange.protectionCancels) <= exchange.protectionCancels
      ensures store.orders == old(store.orders) && store.trades == old(store.trades)
      ensures TouchedOnly(SliceOf(old(store.View()), p), SliceOf(store.View(), p), m)
      ensures FlattenState(r).Some? ==> AttemptsOf(store.View(), p)[m - 1].state == FlattenState(r).value
      ensures Covers(old(store.View()), p, FillsOf(old(store.View()), p)) ==> r.AttemptReported?
      ensures var a := AttemptsOf(old(store.View()), p)[m - 1];
        && exchange.cancels ==
             old(exchange.cancels) + (if a.state != Remotely(CancelRequested) && a.orderId.Some? then [Exit(p, m)] else [])
        && (exchange.accepted == old(exchange.accepted) ||
            (exchange.cancels != old(exchange.cancels) && exchange.accepted == old(exchange.accepted) + [Exit(p, m)]))
        && if a.state == Remotely(CancelRequested) || exchange.accepted != old(exchange.accepted) then
             && AskedSince(old(exchange.lookups), exchange.lookups, Exit(p, m))
             && IsStopping(AttemptsOf(store.View(), p)[m - 1].state)
             && (!IsFinalAttempt(AttemptsOf(store.View(), p)[m - 1].state) ==>
                   |old(exchange.lookups)| + TARGETED_LOOKUPS <= |exchange.lookups|)
           else
             && store.View() == old(store.View()) && r == AttemptReported(a.state)
             && exchange.lookups == old(exchange.lookups)
      decreases 1, 0
    {
      hide Inv, Forward, Advances, SameOthers, Path, Next, CancelsAfterClose, AskedSince, RecordsHold, TouchedOnly, SliceOf, Covers,
           PursuedTo, EndsPursuit, IsFinalAttempt, IsStopping, ToClose, Silent, PositionClosed, Run, Evolves, Good,
           IsQuietAttempt;
      ghost var t0 := store.View();
      AdvancesReflexive(t0);
      SameOthersReflexive(t0, p);
      Untouched(SliceOf(t0, p), AttemptsOf(t0, p), m);
      var intent := store.attempts[p][m - 1];
      if intent.state != Remotely(CancelRequested) {
        if intent.orderId.None? {
          return AttemptReported(intent.state);
        }
        var ok := RequestStop(p, m);
        if !ok {
          return AttemptReported(intent.state);
        }
      }
      ghost var t1 := store.View();
      ghost var said;
      r, said := TargetedFlattenReconcile(p, m, false);
      EndsWhenFinal(t1, store.View(), p, m, r);
      TouchedTransitive(t0, t1, store.View(), p, m);
      AdvancesTransitive(t0, t1, store.View());
      SameOthersTransitive(t0, t1, store.View(), p);
    }

    /** Ask the exchange to cancel attempt `m`, and record that it took the request. */
    method RequestStop(p: PlanId, m: nat) returns (taken: bool)
      requires Good()
      requires 1 <= m <= |AttemptsOf(store.View(), p)|
      modifies this, store, exchange
      ensures Good() && old(run) <= run && Advances(old(store.View()), store.View())
      ensures SameOthers(old(store.View()), store.View(), p)
      ensures exchange.sent == old(exchange.sent) && exchange.replies == old(exchange.replies) && exchange.lookups == old(exchange.lookups)
      ensures exchange.protectionCancels == old(exchange.protectionCancels)
      ensures exchange.cancels == old(exchange.cancels) + [Exit(p, m)]
      ensures exchange.accepted == old(exchange.accepted) + if taken then [Exit(p, m)] else []
      ensures !taken ==> store.View() == old(store.View())
      ensures taken ==> store.View() == PutAttempt(old(store.View()), p, m,
        AttemptsOf(old(store.View()), p)[m - 1].(state := Remotely(CancelRequested)))
      ensures TouchedOnly(SliceOf(old(store.View()), p), SliceOf(store.View(), p), m)
      ensures |AttemptsOf(store.View(), p)| == |AttemptsOf(old(store.View()), p)|
      ensures taken ==> AttemptsOf(store.View(), p)[m - 1].state == Remotely(CancelRequested)
      ensures Covers(old(store.View()), p, FillsOf(old(store.View()), p)) ==> Covers(store.View(), p, FillsOf(store.View(), p))
    {
      hide Inv, Forward, Advances, SameOthers, Path, Next, CancelsAfterClose, RecordsHold, TouchedOnly, SliceOf, Covers, ClaimsNothing;
      ghost var t0 := store.View();
      AdvancesReflexive(t0);
      SameOthersReflexive(t0, p);
      Untouched(SliceOf(t0, p), AttemptsOf(t0, p), m);
      taken := CancelAtExchange(Exit(p, m));
      if taken {
        var asked := store.attempts[p][m - 1].(state := Remotely(CancelRequested));
        RecordsOf(t0, p, m, exchange.protectionAccepted);
        RequestAllowed(t0, p, m);
        PatchAttempt(p, m, asked, false);
        RequestTouches(t0, p, m, asked);
      }
    }

    /** Up to four reconciles of one attempt, stopping at a final state. Afterwards no position is left that
        should be closed, unless the exchange never answered. */
    method TargetedFlattenReconcile(p: PlanId, n: nat, allowClose: bool)
      returns (r: FlattenResult, ghost said: seq<FlattenResult>)
      requires Good()
      requires 1 <= n <= |AttemptsOf(store.View(), p)|
      requires IsAskable(AttemptsOf(store.View(), p)[n - 1].state)
      modifies this, store, exchange
      ensures Good() && old(run) <= run && Advances(old(store.View()), store.View())
      ensures SameOthers(old(store.View()), store.View(), p)
      ensures exchange.sent == old(exchange.sent) && exchange.replies == old(exchange.replies)
      ensures AskedSince(old(exchange.lookups), exchange.lookups, Exit(p, n))
      ensures old(exchange.lookups) <= exchange.lookups && old(exchange.cancels) <= exchange.cancels
      ensures !EndsPursuit(r) ==> |old(exchange.lookups)| + TARGETED_LOOKUPS <= |exchange.lookups|
      ensures 1 <= |said| <= TARGETED_LOOKUPS && said[|said| - 1] == r && forall k :: 0 <= k < |said| - 1 ==> !EndsPursuit(said[k])
      ensures |old(exchange.lookups)| + |said| <= |exchange.lookups| + 1 && (|said| == TARGETED_LOOKUPS || EndsPursuit(r))
      ensures old(exchange.protectionCancels) <= exchange.protectionCancels
      ensures |AttemptsOf(store.View(), p)| == |AttemptsOf(old(store.View()), p)|
      ensures !r.FlattenRaised?
      ensures Silent(old(exchange.lookups), exchange.lookups) && !PositionClosed(SliceOf(old(store.View()), p)) ==>
        store.View() == old(store.View())
      ensures allowClose && ToClose(store.View(), p) ==>
        Silent(old(exchange.lookups), exchange.lookups) && store.View() == old(store.View())
      ensures !allowClose ==>
        && PursuedTo(old(store.View()), store.View(), p, n, r)
        && exchange.cancels == old(exchange.cancels) && exchange.accepted == old(exchange.accepted)
      decreases if allowClose then 2 else 0, 2
    {
      hide Inv, Forward, Advances, SameOthers, Path, Next, CancelsAfterClose, CleanupTried, RecordsHold, TouchedOnly, SliceOf, Covers,
           AskAnswer, AskedFirst, AskedSince, Silent, ToClose, CleanedAfterClose, CleanupDone, QuietKept, OthersQuiet, RowTaken,
           PositionClosed, Pursuing, PursuedTo, EndsPursuit;
      ghost var t0, lookups0 := store.View(), exchange.lookups;
      AdvancesReflexive(t0);
      SameOthersReflexive(t0, p);
      PursuitBegins(t0, p, n);
      NothingAsked(lookups0);
      r, said := NoAttempt, [];
      for i := 0 to TARGETED_LOOKUPS
        invariant |said| == i && (forall k :: 0 <= k < i ==> !EndsPursuit(said[k])) && (i > 0 ==> said[i - 1] == r)
        invariant Good() && old(run) <= run && Advances(t0, store.View()) && SameOthers(t0, store.View(), p)
        invariant old(exchange.protectionCancels) <= exchange.protectionCancels
        invariant i == 0 ==> store.View() == t0 && exchange.lookups == lookups0
        invariant i > 0 ==> AskedSince(lookups0, exchange.lookups, Exit(p, n))
        invariant |lookups0| + i <= |exchange.lookups|
        invariant lookups0 <= exchange.lookups && old(exchange.cancels) <= exchange.cancels
        invariant exchange.sent == old(exchange.sent) && exchange.replies == old(exchange.replies)
        invariant |AttemptsOf(store.View(), p)| == |AttemptsOf(t0, p)|
        invariant !r.FlattenRaised?
        invariant !AttemptsOf(store.View(), p)[n - 1].state.CleanupIncomplete?
        invariant Silent(lookups0, exchange.lookups) && !PositionClosed(SliceOf(t0, p)) ==> store.View() == t0
        invariant allowClose && ToClose(store.View(), p) ==> Silent(lookups0, exchange.lookups) && store.View() == t0
        invariant !allowClose ==>
          && Pursuing(t0, store.View(), p, n) && (i > 0 ==> PursuedTo(t0, store.View(), p, n, r))
          && exchange.cancels == old(exchange.cancels) && exchange.accepted == old(exchange.accepted)
      {
        ghost var t1 := store.View();
        ghost var seen;
        ghost var lookups1 := exchange.lookups;
        AttemptKinds(AttemptsOf(t1, p)[n - 1].state);
        r, seen := ReconcileFlattenIntent(p, n, allowClose);
        said := said + [r];
        AskedMore(lookups1, exchange.lookups, Exit(p, n));
        SilentJoin(lookups0, lookups1, exchange.lookups);
        if i > 0 {
          AskedEarlier(lookups0, lookups1, exchange.lookups, Exit(p, n));
        }
        AdvancesTransitive(t0, t1, store.View());
        SameOthersTransitive(t0, t1, store.View(), p);
        TurnStays(t1, store.View(), p, n, allowClose, seen, r);
        if !allowClose {
          TargetedTurn(t0, t1, store.View(), exchange.truth, exchange.sent, p, n, seen, r);
        }
        if EndsPursuit(r) {
          return;
        }
      }
    }

    /** `_close_flatten_position`: nothing is closed unless the ledger covers the quantity. Without
        an attempt number to clean up under, the source raises before it closes. */
    method CloseFlattenPosition(p: PlanId, n: Option<nat>) returns (r: FlattenResult)
      requires Good() && HasActivePosition(store.View(), p)
      requires n.Some? ==> 1 <= n.value <= |AttemptsOf(store.View(), p)|
      modifies this, store, exchange
      ensures Good() && old(run) <= run && Advances(old(store.View()), store.View())
      ensures SameOthers(old(store.View()), store.View(), p)
      ensures exchange.sent == old(exchange.sent) && exchange.replies == old(exchange.replies)
      ensures exchange.lookups == old(exchange.lookups)
      ensures exchange.cancels == old(exchange.cancels) && exchange.accepted == old(exchange.accepted)
      ensures old(exchange.protectionCancels) <= exchange.protectionCancels
      ensures Total(FillsOf(old(store.View()), p)) < old(store.positions)[p].quantity ==>
        && store.View() == old(store.View())
        && r == if FillsOf(store.View(), p) == map[] then ReconciliationRequired else NotCovered
      ensures Covers(old(store.View()), p, FillsOf(old(store.View()), p)) && n.None? ==>
        r.FlattenRaised? && store.View() == old(store.View())
      ensures Covers(old(store.View()), p, FillsOf(old(store.View()), p)) && n.Some? ==>
        && CloseEnd(old(store.View()), store.View(), p, n.value, r)
        && (r.CleanedUp? ==> CleanedAfterClose(store.View(), p, n.value, r.complete, exchange.protectionCancels,
                                               exchange.protectionAccepted))
      decreases 0, 4
    {
      hide Inv, Forward, Advances, SliceOf, SameOthers, CleanedAfterClose, CanCloseNow, CloseEnd, Path, Next, CancelsAfterClose,
           RecordsHold;
      ghost var t0 := store.View();
      AdvancesReflexive(t0);
      SameOthersReflexive(t0, p);
      SliceParts(t0, p);
      HasQuantity(t0, exchange.truth, exchange.sent, p);
      var quantity := store.ConfirmedExitQuantity(p);
      if p !in store.fills || store.fills[p] == map[] {
        NoFills(t0, p);
        return ReconciliationRequired;
      }
      if quantity < store.positions[p].quantity {
        return NotCovered;
      }
      if n.None? {
        return FlattenRaised;
      }
      r := CloseAndCleanUp(p, n.value, quantity);
    }

    /** The ledger covers the position: the close transaction, and the cleanup of the protective orders. */
    method CloseAndCleanUp(p: PlanId, n: nat, quantity: nat) returns (r: FlattenResult)
      requires Good() && HasActivePosition(store.View(), p)
      requires 1 <= n <= |AttemptsOf(store.View(), p)|
      requires store.positions[p].quantity <= quantity == Total(FillsOf(store.View(), p))
      modifies this, store, exchange
      ensures Good() && old(run) <= run && Advances(old(store.View()), store.View())
      ensures SameOthers(old(store.View()), store.View(), p)
      ensures exchange.sent == old(exchange.sent) && exchange.replies == old(exchange.replies)
      ensures exchange.lookups == old(exchange.lookups)
      ensures exchange.cancels == old(exchange.cancels) && exchange.accepted == old(exchange.accepted)
      ensures old(exchange.protectionCancels) <= exchange.protectionCancels
      ensures r.CleanedUp? || r.CloseRefused?
      ensures CloseEnd(old(store.View()), store.View(), p, n, r)
      ensures r.CleanedUp? ==>
        CleanedAfterClose(store.View(), p, n, r.complete, exchange.protectionCancels, exchange.protectionAccepted)
      decreases 0, 3
    {
      hide Inv, Forward, Advances, SliceOf, SameOthers, CleanupDone, ClosedNow, CancelTried, IsCancelled, Path, Next,
           CancelsAfterClose, RecordsHold, ClaimsNothing, PositionClosed, CleanedAfterClose, CanCloseNow, CloseEnd;
      ghost var t0 := store.View();
      SliceParts(t0, p);
      var ok := CloseNow(p, quantity);
      if !ok {
        var failed := store.attempts[p][n - 1].(state := ReconciliationFailed);
        FailureAllowed(t0, p, n);
        RecordsOf(t0, p, n, exchange.protectionAccepted);
        PatchAttempt(p, n, failed, false);
        RefusedEnds(t0, p, n);
        return CloseRefused;
      }
      ghost var t1, cancels1, taken1 := store.View(), exchange.protectionCancels, exchange.protectionAccepted;
      ClosedParts(t0, t1, p);
      NoneTaken(t0, t1, p, n, taken1);
      SliceParts(t1, p);
      r := CleanupFlattenProtection(p, n);
      SameStanding(t1, store.View(), p, n, r.complete);
      CleanupFollows(t1, store.View(), p, n, r.complete, cancels1, exchange.protectionCancels, taken1,
                     exchange.protectionAccepted);
      ClosedEnds(t0, t1, store.View(), p, n, quantity, r);
      AdvancesTransitive(t0, t1, store.View());
      SameOthersTransitive(t0, t1, store.View(), p);
    }

    /** `_cleanup_flatten_protection`: only for a CLOSED position; an id recorded CANCELLED is not
        sent again and stays recorded; FILLED means every protective id is recorded. */
    method CleanupFlattenProtection(p: PlanId, n: nat) returns (r: FlattenResult)
      requires Good()
      requires 1 <= n <= |AttemptsOf(store.View(), p)|
      modifies this, store, exchange
      ensures Good() && old(run) <= run && Advances(old(store.View()), store.View())
      ensures SameOthers(old(store.View()), store.View(), p)
      ensures exchange.sent == old(exchange.sent) && exchange.replies == old(exchange.replies)
      ensures exchange.lookups == old(exchange.lookups)
      ensures exchange.cancels == old(exchange.cancels) && exchange.accepted == old(exchange.accepted)
      ensures old(exchange.protectionCancels) <= exchange.protectionCancels
      ensures old(exchange.protectionAccepted) <= exchange.protectionAccepted
      ensures store.View() == old(store.View()).(attempts := store.attempts)
      ensures !PositionClosed(SliceOf(old(store.View()), p)) ==>
        r.ReconciliationRequired? && store.View() == old(store.View()) &&
        exchange.protectionCancels == old(exchange.protectionCancels)
      ensures PositionClosed(SliceOf(old(store.View()), p)) ==>
        && r.CleanedUp?
        && CleanupDone(SliceOf(old(store.View()), p), SliceOf(store.View(), p), n, r.complete)
        && old(exchange.protectionCancels) <= exchange.protectionCancels
        && forall k :: |old(exchange.protectionCancels)| <= k < |exchange.protectionCancels| ==>
             && exchange.protectionCancels[k].0 == p
             && !IsCancelled(AttemptsOf(old(store.View()), p)[n - 1].cleanup, exchange.protectionCancels[k].1)
      ensures PositionClosed(SliceOf(old(store.View()), p)) ==>
        forall id :: id in old(store.positions)[p].protectiveIds ==>
          || IsCancelled(AttemptsOf(old(store.View()), p)[n - 1].cleanup, id)
          || CancelTried(old(exchange.protectionCancels), exchange.protectionCancels, p, id)
      ensures PositionClosed(SliceOf(old(store.View()), p)) ==>
        forall id :: id in old(store.positions)[p].protectiveIds ==>
          (IsCancelled(AttemptsOf(store.View(), p)[n - 1].cleanup, id) <==>
             || IsCancelled(AttemptsOf(old(store.View()), p)[n - 1].cleanup, id)
             || CancelTried(old(exchange.protectionAccepted), exchange.protectionAccepted, p, id))
      decreases 0, 2
    {
      hide Inv, Forward, Advances, SliceOf, SameOthers, CleanupDone, CancelTried, ClaimsNothing, IsCancelled, Path, Next, CancelsAfterClose, RecordsHold,
           PositionClosed, TouchedOnly, Run;
      ghost var t0 := store.View();
      AdvancesReflexive(t0);
      SameOthersReflexive(t0, p);
      SliceParts(t0, p);
      if p !in store.positions || !store.positions[p].state.Closed? {
        return ReconciliationRequired;
      }
      var attempt := store.attempts[p][n - 1];
      var ids := store.positions[p].protectiveIds;
      var cleanup := CancelProtections(p, ids, attempt.cleanup);
      var persisted := map id | id in ids :: cleanup[id];
      var complete := !(store.positions[p].protected && ids == []) && forall id | id in ids :: persisted[id];
      var after := attempt.(
        state := if complete then Remotely(Filled) else CleanupIncomplete,
        terminalConfirmed := true, reconciliationComplete := complete, cleanup := persisted);
      CleanupAllowed(t0, p, n, after);
      RecordsOf(t0, p, n, old(exchange.protectionAccepted));
      PersistedHold(attempt.cleanup, cleanup, persisted, ids, p, old(exchange.protectionAccepted), exchange.protectionAccepted);
      PatchAttempt(p, n, after, false);
      AttemptPatched(t0, store.View(), p, n, after);
      CleanupIsDone(t0, store.View(), p, n, after, cleanup, complete);
      r := CleanedUp(complete);
    }

    /** Cancel every protective id that is not already recorded as cancelled. */
    method CancelProtections(p: PlanId, ids: seq<string>, recorded: map<string, bool>)
      returns (cleanup: map<string, bool>)
      requires Good() && PositionClosed(SliceOf(store.View(), p))
      modifies this, exchange
      ensures Good() && old(run) <= run && exchange.sent == old(exchange.sent) && exchange.replies == old(exchange.replies)
      ensures exchange.lookups == old(exchange.lookups)
      ensures exchange.cancels == old(exchange.cancels) && exchange.accepted == old(exchange.accepted)
      ensures old(exchange.protectionCancels) <= exchange.protectionCancels
      ensures forall k :: |old(exchange.protectionCancels)| <= k < |exchange.protectionCancels| ==>
        exchange.protectionCancels[k].0 == p && !IsCancelled(recorded, exchange.protectionCancels[k].1)
      ensures forall id :: id in ids ==> id in cleanup
      ensures old(exchange.protectionAccepted) <= exchange.protectionAccepted
      ensures forall id :: IsCancelled(cleanup, id) <==>
        IsCancelled(recorded, id) || CancelTried(old(exchange.protectionAccepted), exchange.protectionAccepted, p, id)
      ensures forall id :: id in ids ==>
        IsCancelled(recorded, id) || CancelTried(old(exchange.protectionCancels), exchange.protectionCancels, p, id)
    {
      hide *;
      cleanup := recorded;
      NothingTried(exchange.protectionAccepted, p);
      for i := 0 to |ids|
        invariant exchange.lookups == old(exchange.lookups)
        invariant exchange.cancels == old(exchange.cancels) && exchange.accepted == old(exchange.accepted)
        invariant Good() && old(run) <= run && exchange.sent == old(exchange.sent) && exchange.replies == old(exchange.replies)
        invariant PositionClosed(SliceOf(store.View(), p))
        invariant old(exchange.protectionCancels) <= exchange.protectionCancels
        invariant forall k :: |old(exchange.protectionCancels)| <= k < |exchange.protectionCancels| ==>
          exchange.protectionCancels[k].0 == p && !IsCancelled(recorded, exchange.protectionCancels[k].1)
        invariant forall id :: id in ids[..i] ==> id in cleanup
        invariant old(exchange.protectionAccepted) <= exchange.protectionAccepted
        invariant forall id :: IsCancelled(cleanup, id) <==>
          IsCancelled(recorded, id) || CancelTried(old(exchange.protectionAccepted), exchange.protectionAccepted, p, id)
        invariant forall id :: IsCancelled(cleanup, id) ==>
          IsCancelled(recorded, id) || CancelTried(old(exchange.protectionCancels), exchange.protectionCancels, p, id)
        invariant forall id :: id in ids[..i] ==>
          IsCancelled(recorded, id) || CancelTried(old(exchange.protectionCancels), exchange.protectionCancels, p, id)
      {
        if !IsCancelled(cleanup, ids[i]) {
          ghost var log1, taken1 := exchange.protectionCancels, exchange.protectionAccepted;
          var ok := CancelOneProtection(p, ids[i]);
          TriedStays(old(exchange.protectionCancels), log1, exchange.protectionCancels, p, ids[i]);
          TakenStays(old(exchange.protectionAccepted), taken1, exchange.protectionAccepted, p, ids[i], ok);
          RecordOne(recorded, cleanup, ids[i], ok);
          cleanup := cleanup[ids[i] := ok];
        } else {
          CancelledIsRecorded(cleanup, ids[i]);
        }
      }
      assert ids[..|ids|] == ids;
    }

    method CancelOneProtection(p: PlanId, id: string) returns (ok: bool)
      requires Good() && PositionClosed(SliceOf(store.View(), p))
      modifies this, exchange
      ensures Good() && old(run) <= run && exchange.sent == old(exchange.sent) && exchange.replies == old(exchange.replies)
      ensures exchange.lookups == old(exchange.lookups)
      ensures exchange.cancels == old(exchange.cancels) && exchange.accepted == old(exchange.accepted)
      ensures exchange.protectionCancels == old(exchange.protectionCancels) + [(p, id)]
      ensures exchange.protectionAccepted ==
        if ok then old(exchange.protectionAccepted) + [(p, id)] else old(exchange.protectionAccepted)
    {
      hide Inv, Next, Path, Evolves, SliceOf, PositionClosed, RecordsHold;
      ghost var truth0 := exchange.truth;
      GoodIsWellFormed();
      ok := exchange.CancelProtection(p, id);
      RecordsLonger(store.View(), old(exchange.protectionAccepted), exchange.protectionAccepted);
      EvolveStep(store.View(), truth0, exchange.truth, exchange.sent);
      Record(ExchangeMoves, Now());
    }

    /** `flatten_managed_positions`: first retry unfinished cleanups, then advance every managed
        position. When it runs to the end, every position it found open is closed or has an
        attempt, and had its turn; `stopped` says that an exception or the end of the process cut it short. */
    method FlattenManagedPositions() returns (stopped: bool)
      requires Good()
      modifies this, store, exchange
      ensures Good() && old(run) <= run && Advances(old(store.View()), store.View())
      ensures old(exchange.sent) <= exchange.sent
      ensures forall p :: Retried(old(store.View()), p, |AttemptsOf(old(store.View()), p)|,
                                  old(exchange.protectionCancels), exchange.protectionCancels)
      ensures !stopped ==> forall p :: HasActivePosition(old(store.View()), p) ==> Answered(store.View(), p)
      ensures !stopped ==> forall p :: HasActivePosition(old(store.View()), p) ==>
        Turned(old(store.View()), store.View(), p, canExit, exchange.sent, old(exchange.cancels), exchange.cancels,
               old(exchange.lookups), exchange.lookups, |old(run)|, run)
      ensures old(exchange.lookups) <= exchange.lookups && old(exchange.cancels) <= exchange.cancels
      ensures old(exchange.replies) <= exchange.replies
      ensures stopped ==> CutShortAt(|old(run)|, run, old(exchange.replies), exchange.replies)
    {
      hide *;
      ghost var replies0 := exchange.replies;
      ghost var t0, run0, log0 := store.View(), run, exchange.protectionCancels;
      ghost var sent0, cancels0, lookups0 := exchange.sent, exchange.cancels, exchange.lookups;
      RetryCleanups();
      ghost var t1, log1 := store.View(), exchange.protectionCancels;
      var ids := store.ManagedPositions();
      OpenAgain(t0, t1);
      stopped := false;
      AdvancesReflexive(t1);
      TurnsBegin(t1, ids, canExit, sent0, cancels0, lookups0, |run0|, run);
      for i := 0 to |ids|
        invariant Good() && run0 <= run && Advances(t1, store.View())
        invariant log1 <= exchange.protectionCancels && replies0 <= exchange.replies
        invariant sent0 <= exchange.sent && cancels0 <= exchange.cancels && lookups0 <= exchange.lookups
        invariant TurnsTaken(t1, store.View(), ids, i, canExit, exchange.sent, cancels0, exchange.cancels, lookups0,
                             exchange.lookups, |run0|, run)
      {
        ghost var t2, sent2, cancels2, lookups2, run2 := store.View(), exchange.sent, exchange.cancels, exchange.lookups, run;
        assert HasActivePosition(t1, ids[i]);
        PositionStays(t1, t2, ids[i]);
        ghost var mid, asked, replies2 := *, *, exchange.replies;
        stopped, mid, asked := FlattenOne(ids[i]);
        AdvancesTransitive(t1, t2, store.View());
        if stopped {
          CutShortNow(mid, ids[i], |run0|, |run2|, run, replies0, replies2, exchange.replies);
          AdvancesTransitive(t0, t1, store.View());
          RetriedStill(t0, log0, log1, exchange.protectionCancels);
          return;
        }
        TurnNext(t1, t2, mid, store.View(), ids, i, canExit, sent2, exchange.sent, cancels0, cancels2, exchange.cancels,
                 lookups0, lookups2, asked, exchange.lookups, |run0|, run2, run);
      }
      AdvancesTransitive(t0, t1, store.View());
      RetriedStill(t0, log0, log1, exchange.protectionCancels);
      TurnsEnd(t0, t1, store.View(), ids, canExit, exchange.sent, cancels0, exchange.cancels, lookups0, exchange.lookups, |run0|, run);
    }

    /** Attempts left in PROTECTION_CLEANUP_INCOMPLETE are cleaned up again, every one of them. */
    method RetryCleanups()
      requires Good()
      modifies this, store, exchange
      ensures Good() && old(run) <= run && Advances(old(store.View()), store.View())
      ensures exchange.sent == old(exchange.sent) && exchange.replies == old(exchange.replies)
      ensures old(exchange.protectionCancels) <= exchange.protectionCancels
      ensures exchange.lookups == old(exchange.lookups) && exchange.cancels == old(exchange.cancels)
      ensures store.View() == old(store.View()).(attempts := store.attempts)
      ensures forall p :: Retried(old(store.View()), p, |AttemptsOf(old(store.View()), p)|,
                                  old(exchange.protectionCancels), exchange.protectionCancels)
      ensures forall p :: HasActivePosition(old(store.View()), p) ==> SliceOf(store.View(), p) == SliceOf(old(store.View()), p)
    {
      hide Inv, Forward, Advances, SliceOf, SameOthers, Retried, IsAskable, QuietKept, RowTaken, OthersQuiet, TouchedOnly,
           CleanupTried, CancelTried, AskedSince, PositionClosed, HasActivePosition, Good;
      ghost var t0, log0 := store.View(), exchange.protectionCancels;
      AdvancesReflexive(t0);
      var ids := ListOf(store.attempts.Keys);
      for i := 0 to |ids|
        invariant Good() && old(run) <= run && Advances(t0, store.View())
        invariant exchange.sent == old(exchange.sent) && exchange.replies == old(exchange.replies) && log0 <= exchange.protectionCancels
        invariant exchange.lookups == old(exchange.lookups) && exchange.cancels == old(exchange.cancels)
        invariant store.View() == t0.(attempts := store.attempts)
        invariant OpenStay(t0, store.View())
        invariant forall j :: i <= j < |ids| ==> SliceOf(store.View(), ids[j]) == SliceOf(t0, ids[j])
        invariant forall k :: 0 <= k < i ==> Retried(t0, ids[k], |AttemptsOf(t0, ids[k])|, log0, exchange.protectionCancels)
      {
        ghost var t1, log1 := store.View(), exchange.protectionCancels;
        RetryCleanupsOf(ids[i]);
        OpenStayStill(t0, t1, store.View(), ids[i]);
        AdvancesTransitive(t0, t1, store.View());
        RetriedStay(t0, t1, store.View(), ids, i, log0, log1, exchange.protectionCancels);
      }
      RetriedAll(t0, ids, log0, exchange.protectionCancels);
      OpenStaySame(t0, store.View());
    }

    /** The cleanups of one plan. */
    method RetryCleanupsOf(p: PlanId)
      requires Good()
      modifies this, store, exchange
      ensures Good() && old(run) <= run && Advances(old(store.View()), store.View()) && SameOthers(old(store.View()), store.View(), p)
      ensures exchange.sent == old(exchange.sent) && exchange.replies == old(exchange.replies)
      ensures old(exchange.protectionCancels) <= exchange.protectionCancels
      ensures exchange.lookups == old(exchange.lookups) && exchange.cancels == old(exchange.cancels)
      ensures store.View() == old(store.View()).(attempts := store.attempts)
      ensures !PositionClosed(SliceOf(old(store.View()), p)) ==> store.View() == old(store.View())
      ensures Retried(old(store.View()), p, |AttemptsOf(old(store.View()), p)|,
                      old(exchange.protectionCancels), exchange.protectionCancels)
    {
      hide Inv, Forward, Advances, SliceOf, SameOthers, Retried, RetryPending, IsAskable, QuietKept, RowTaken, OthersQuiet,
           TouchedOnly, CleanupTried, CancelTried, AskedSince, PositionClosed, AskAnswer, AskedFirst, CleanedAfterClose, ToClose,
           Silent, CleanupDone, Good;
      ghost var t0, log0 := store.View(), exchange.protectionCancels;
      AdvancesReflexive(t0);
      SameOthersReflexive(t0, p);
      AttemptsMissing(t0, p);
      RetryBegins(t0, p, log0);
      var count := if p in store.attempts then |store.attempts[p]| else 0;
      for n := 1 to count + 1
        invariant Good() && old(run) <= run && Advances(t0, store.View()) && SameOthers(t0, store.View(), p)
        invariant exchange.sent == old(exchange.sent) && exchange.replies == old(exchange.replies) && log0 <= exchange.protectionCancels
        invariant exchange.lookups == old(exchange.lookups) && exchange.cancels == old(exchange.cancels)
        invariant store.View() == t0.(attempts := store.attempts)
        invariant !PositionClosed(SliceOf(t0, p)) ==> store.View() == t0
        invariant |AttemptsOf(store.View(), p)| == count
        invariant RetryPending(t0, store.View(), p, n - 1)
        invariant Retried(t0, p, n - 1, log0, exchange.protectionCancels)
      {
        ghost var t1, log1 := store.View(), exchange.protectionCancels;
        AttemptsMissing(t1, p);
        if store.attempts[p][n - 1].state.CleanupIncomplete? {
          var r;
          ghost var seen;
          r, seen := ReconcileFlattenIntent(p, n, true);
          AdvancesTransitive(t0, t1, store.View());
          SameOthersTransitive(t0, t1, store.View(), p);
          RetryOne(t0, t1, store.View(), p, n, log0, log1, exchange.protectionCancels);
        } else {
          RetrySkips(t0, t1, p, n, log0, log1);
        }
      }
    }

    /** Reconcile every attempt of one position in order: afterwards each is FILLED or in cleanup, or the
        exchange was asked about it, and no position is left that should be closed unless it never answered. */
    method ReconcileAttempts(p: PlanId)
      requires Good()
      modifies this, store, exchange
      ensures Good() && old(run) <= run && Advances(old(store.View()), store.View())
      ensures SameOthers(old(store.View()), store.View(), p)
      ensures exchange.sent == old(exchange.sent) && exchange.replies == old(exchange.replies)
      ensures old(exchange.lookups) <= exchange.lookups && old(exchange.cancels) <= exchange.cancels
      ensures old(exchange.protectionCancels) <= exchange.protectionCancels
      ensures |AttemptsOf(store.View(), p)| == |AttemptsOf(old(store.View()), p)|
      ensures AllAsked(AttemptsOf(store.View(), p), |AttemptsOf(old(store.View()), p)|, p, old(exchange.lookups), exchange.lookups)
      ensures Silent(old(exchange.lookups), exchange.lookups) && !PositionClosed(SliceOf(old(store.View()), p)) ==>
        store.View() == old(store.View())
      ensures ToClose(store.View(), p) ==>
        Silent(old(exchange.lookups), exchange.lookups) && store.View() == old(store.View())
    {
      hide Inv, Forward, Advances, SliceOf, SameOthers, AllAsked, QuietKept, PositionClosed, RowTaken, OthersQuiet, TouchedOnly,
           CleanupTried, CancelTried, AskedSince, IsAskable, AskAnswer, AskedFirst, CleanedAfterClose, ToClose, Silent, CleanupDone,
           Good;
      ghost var t0, lookups0 := store.View(), exchange.lookups;
      SameOthersReflexive(t0, p);
      AdvancesReflexive(t0);
      AttemptsMissing(t0, p);
      var count := if p in store.attempts then |store.attempts[p]| else 0;
      NoneAsked(AttemptsOf(t0, p), p, exchange.lookups, exchange.lookups);
      NothingAsked(lookups0);
      for n := 1 to count + 1
        invariant Good() && old(run) <= run && Advances(t0, store.View()) && SameOthers(t0, store.View(), p)
        invariant exchange.sent == old(exchange.sent) && exchange.replies == old(exchange.replies)
        invariant |AttemptsOf(store.View(), p)| == count
        invariant old(exchange.protectionCancels) <= exchange.protectionCancels
        invariant lookups0 <= exchange.lookups && old(exchange.cancels) <= exchange.cancels
        invariant AllAsked(AttemptsOf(store.View(), p), n - 1, p, lookups0, exchange.lookups)
        invariant Silent(lookups0, exchange.lookups) && !PositionClosed(SliceOf(t0, p)) ==> store.View() == t0
        invariant ToClose(store.View(), p) ==> Silent(lookups0, exchange.lookups) && store.View() == t0
      {
        ghost var t1, lookups1 := store.View(), exchange.lookups;
        var r;
        ghost var seen;
        r, seen := ReconcileFlattenIntent(p, n, true);
        SilentJoin(lookups0, lookups1, exchange.lookups);
        AdvancesTransitive(t0, t1, store.View());
        SameOthersTransitive(t0, t1, store.View(), p);
        AttemptKinds(AttemptsOf(t1, p)[n - 1].state);
        AskedOneMore(AttemptsOf(t1, p), AttemptsOf(store.View(), p), n, p, lookups0, lookups1, exchange.lookups);
      }
    }

    /** One position: reconcile what was sent, then take the next step for it. `mid` and `asked` are the tables
        and the log of lookups in between. */
    method FlattenOne(p: PlanId) returns (stopped: bool, ghost mid: Tables, ghost asked: seq<Asked>)
      requires Good() && p in store.View().positions
      modifies this, store, exchange
      ensures Good() && old(run) <= run && Advances(old(store.View()), store.View())
      ensures SameOthers(old(store.View()), store.View(), p)
      ensures old(exchange.sent) <= exchange.sent
      ensures old(exchange.lookups) <= exchange.lookups && old(exchange.cancels) <= exchange.cancels
      ensures old(exchange.protectionCancels) <= exchange.protectionCancels
      ensures !stopped ==> Answered(store.View(), p)
      ensures exists k :: 0 <= k < |run| && |old(run)| - 1 <= k && run[k].tables == mid
      ensures Reconciled(old(store.View()), mid, p, old(exchange.lookups), asked) && asked <= exchange.lookups
      ensures if HasActivePosition(mid, p) then
          !stopped ==> TurnTaken(mid, store.View(), p, canExit, exchange.sent, old(exchange.cancels), exchange.cancels,
                                 asked, exchange.lookups)
        else !stopped && store.View() == mid
      ensures old(exchange.replies) <= exchange.replies
      ensures stopped ==> HasActivePosition(mid, p) && CutShort(mid, p, old(exchange.replies), exchange.replies)
    {
      hide Inv, Forward, Advances, AllAsked, Silent, ToClose, TurnTaken, Reconciled, SameOthers, AskedSince, SliceOf, Next, Path,
           CancelsAfterClose, RecordsHold, PositionClosed, Answered, NeedsExit, Total, FillsOf, Covers, CutShort;
      ghost var t0, cancels0 := store.View(), exchange.cancels;
      ReconcileAttempts(p);
      mid, asked := store.View(), exchange.lookups;
      ReconciledNow(t0, mid, p, old(exchange.lookups), asked);
      PositionStays(t0, mid, p);
      RunEndsNow();
      ghost var last, before, cancels1 := |run| - 1, run, exchange.cancels;
      if !IsManaged(store.positions[p].state) {
        NotOpen(mid, exchange.truth, exchange.sent, p);
        stopped := false;
        return;
      }
      stopped := FlattenActive(p);
      if !stopped {
        TurnLonger(mid, store.View(), p, canExit, exchange.sent, cancels0, cancels1, exchange.cancels, asked, exchange.lookups);
      }
      assert run[last] == before[last];
      AdvancesTransitive(t0, mid, store.View());
      SameOthersTransitive(t0, mid, store.View(), p);
    }

    /** An open position whose attempts were just reconciled: wait for, or cancel, an attempt that
        may still sell; otherwise open a new one for exactly what the ledger does not cover. */
    method FlattenActive(p: PlanId) returns (stopped: bool)
      requires Good() && HasActivePosition(store.View(), p)
      modifies this, store, exchange
      ensures Good() && old(run) <= run && Advances(old(store.View()), store.View())
      ensures SameOthers(old(store.View()), store.View(), p)
      ensures old(exchange.sent) <= exchange.sent
      ensures old(exchange.lookups) <= exchange.lookups && old(exchange.cancels) <= exchange.cancels
      ensures old(exchange.protectionCancels) <= exchange.protectionCancels
      ensures !stopped ==> Answered(store.View(), p)
      ensures exchange.sent != old(exchange.sent) ==>
        exchange.sent == old(exchange.sent) + [Exit(p, |AttemptsOf(old(store.View()), p)| + 1)]
      ensures NeedsExit(SliceOf(old(store.View()), p)) <==>
        |AttemptsOf(store.View(), p)| == |AttemptsOf(old(store.View()), p)| + 1
      ensures NeedsExit(SliceOf(old(store.View()), p)) ==>
        && AttemptsOf(store.View(), p)[|AttemptsOf(old(store.View()), p)|].requested ==
             old(store.positions)[p].quantity - Total(FillsOf(old(store.View()), p))
        && (canExit ==> exchange.sent == old(exchange.sent) + [Exit(p, |AttemptsOf(old(store.View()), p)| + 1)])
      ensures !stopped ==> TurnTaken(old(store.View()), store.View(), p, canExit, exchange.sent, old(exchange.cancels),
                                     exchange.cancels, old(exchange.lookups), exchange.lookups)
      ensures old(exchange.replies) <= exchange.replies
      ensures stopped <==> CutShort(old(store.View()), p, old(exchange.replies), exchange.replies)
      ensures stopped && AttemptsOf(old(store.View()), p) == [] && Covers(old(store.View()), p, FillsOf(old(store.View()), p)) ==>
        store.View() == old(store.View())
    {
      hide Inv, Forward, Advances, SliceOf, CancelTried, SameOthers, CloseEnd, CleanedAfterClose, StopTried, TouchedOnly, TurnTaken,
           NeedsExit, OverCommits, Reopens, IsQuietAttempt, Total, Good, CanCloseNow, PositionClosed, Died;
      ghost var t0, replies0 := store.View(), exchange.replies;
      NobodyDied(p, |AttemptsOf(t0, p)| + 1, replies0);
      AdvancesReflexive(t0);
      SameOthersReflexive(t0, p);
      WhenNeeded(t0, p);
      var attempts := if p in store.attempts then store.attempts[p] else [];
      var quantity := store.positions[p].quantity;
      var confirmed := store.ConfirmedExitQuantity(p);
      if attempts != [] {
        var latest := attempts[|attempts| - 1];
        if !IsQuietAttempt(latest.state) {
          var unfilled := if latest.requested > latest.filled then latest.requested - latest.filled else 0;
          if confirmed + unfilled > quantity {
            CancelLatest(p);
            TurnCancels(t0, store.View(), p, canExit, exchange.sent, old(exchange.cancels), exchange.cancels,
                        old(exchange.lookups), exchange.lookups);
            return false;
          }
        }
        if !Reopens(latest) {
          TurnWaits(t0, p, canExit, exchange.sent, old(exchange.cancels), exchange.cancels, old(exchange.lookups), exchange.lookups);
          return false;
        }
      }
      if quantity <= confirmed {
        var closed := CloseFlattenPosition(p, if attempts == [] then None else Some(|attempts|));
        if attempts != [] {
          TurnCloses(t0, store.View(), p, closed, canExit, exchange.sent, old(exchange.cancels), exchange.cancels,
                     old(exchange.lookups), exchange.lookups);
        }
        return closed.FlattenRaised?;
      }
      stopped := Reattempt(p, quantity - confirmed);
      TurnOpens(t0, store.View(), p, canExit, exchange.sent, old(exchange.cancels), exchange.cancels,
                old(exchange.lookups), exchange.lookups);
    }

    /** Ask the latest attempt to stop. */
    method CancelLatest(p: PlanId)
      requires Good() && AttemptsOf(store.View(), p) != []
      requires !IsQuietAttempt(AttemptsOf(store.View(), p)[|AttemptsOf(store.View(), p)| - 1].state)
      modifies this, store, exchange
      ensures Good() && old(run) <= run && Advances(old(store.View()), store.View())
      ensures SameOthers(old(store.View()), store.View(), p)
      ensures exchange.sent == old(exchange.sent) && exchange.replies == old(exchange.replies)
      ensures old(exchange.lookups) <= exchange.lookups && old(exchange.cancels) <= exchange.cancels
      ensures old(exchange.protectionCancels) <= exchange.protectionCancels
      ensures |AttemptsOf(store.View(), p)| == |AttemptsOf(old(store.View()), p)|
      ensures TouchedOnly(SliceOf(old(store.View()), p), SliceOf(store.View(), p), |AttemptsOf(old(store.View()), p)|)
      ensures StopTried(AttemptsOf(old(store.View()), p)[|AttemptsOf(old(store.View()), p)| - 1], p,
                        |AttemptsOf(old(store.View()), p)|, old(exchange.cancels), exchange.cancels,
                        old(exchange.lookups), exchange.lookups)
    {
      hide Inv, Forward, Advances, SameOthers, SliceOf, TouchedOnly, AskedSince, Good, IsQuietAttempt, Covers;
      ghost var t0, cancels0 := store.View(), exchange.cancels;
      var cancelled := CancelFlattenAttempt(p, |store.attempts[p]|);
      TouchedRows(t0, store.View(), p, |AttemptsOf(t0, p)|);
      assert exchange.cancels != cancels0 ==> exchange.cancels[|cancels0|] == Exit(p, |AttemptsOf(t0, p)|);
    }

    /** Open the next attempt for the remainder and send it. */
    method Reattempt(p: PlanId, remaining: nat) returns (stopped: bool)
      requires Good() && HasActivePosition(store.View(), p)
      requires remaining + Total(FillsOf(store.View(), p)) == store.positions[p].quantity && remaining > 0
      requires AttemptsOf(store.View(), p) != [] ==> Reopens(AttemptsOf(store.View(), p)[|AttemptsOf(store.View(), p)| - 1])
      modifies this, store, exchange
      ensures Good() && old(run) <= run && Advances(old(store.View()), store.View())
      ensures SameOthers(old(store.View()), store.View(), p)
      ensures exchange.sent == old(exchange.sent) + if canExit then [Exit(p, |AttemptsOf(old(store.View()), p)| + 1)] else []
      ensures old(exchange.lookups) <= exchange.lookups && old(exchange.cancels) <= exchange.cancels
      ensures old(exchange.protectionCancels) <= exchange.protectionCancels
      ensures |AttemptsOf(store.View(), p)| == |AttemptsOf(old(store.View()), p)| + 1
      ensures AttemptsOf(store.View(), p)[|AttemptsOf(old(store.View()), p)|].requested == remaining
      ensures old(exchange.replies) <= exchange.replies
      ensures stopped <==> Died(p, |AttemptsOf(old(store.View()), p)| + 1, old(exchange.replies), exchange.replies)
    {
      hide Inv, Forward, Advances, SliceOf, Opened, SameOthers, ToClose, Silent;
      ghost var replies0 := exchange.replies;
      ghost var t0 := store.View();
      var n := OpenAttempt(p, remaining);
      ghost var t1 := store.View();
      OpenedFor(t0, t1, p, remaining);
      var reply;
      stopped, reply := SendAttempt(p, n, remaining);
      DiedWhen(p, n, replies0, exchange.replies, reply);
      KeepsAttempt(t1, store.View(), p, n);
      AdvancesTransitive(t0, t1, store.View());
      SameOthersTransitive(t0, t1, store.View(), p);
    }

    /** Persist the next attempt before anything is sent under its client id. */
    method OpenAttempt(p: PlanId, remaining: nat) returns (n: nat)
      requires Good() && HasActivePosition(store.View(), p)
      requires remaining + Total(FillsOf(store.View(), p)) == store.positions[p].quantity && remaining > 0
      requires AttemptsOf(store.View(), p) != [] ==> Reopens(AttemptsOf(store.View(), p)[|AttemptsOf(store.View(), p)| - 1])
      modifies this, store
      ensures Good() && old(run) <= run && Advances(old(store.View()), store.View())
      ensures SameOthers(old(store.View()), store.View(), p)
      ensures Opened(SliceOf(old(store.View()), p), SliceOf(store.View(), p))
      ensures n == |AttemptsOf(store.View(), p)| == |AttemptsOf(old(store.View()), p)| + 1
      ensures Exit(p, n) !in exchange.truth && Exit(p, n) !in exchange.sent
    {
      hide Inv, Forward, Next, Path, Opened, SameOthers, SliceOf, CancelsAfterClose, RecordsHold;
      ghost var t0 := store.View();
      n := store.InsertAttempt(p, remaining);
      OpenedStep(t0, store.View(), exchange.truth, exchange.sent, p, remaining);
      RecordsOpened(t0, p, remaining, exchange.protectionAccepted);
      Wrote(t0, OpensAttempt(p));
    }

    /** Send the attempt that was just opened, record the reply, and follow up one that may have gone
        through. */
    method SendAttempt(p: PlanId, n: nat, remaining: nat) returns (stopped: bool, reply: Option<SubmitReply>)
      requires Good()
      requires 1 <= n == |AttemptsOf(store.View(), p)| && AttemptsOf(store.View(), p)[n - 1] == NewAttempt(remaining)
      requires Exit(p, n) !in exchange.truth && Exit(p, n) !in exchange.sent
      modifies this, store, exchange
      ensures Good() && old(run) <= run && Advances(old(store.View()), store.View())
      ensures SameOthers(old(store.View()), store.View(), p)
      ensures exchange.sent == old(exchange.sent) + (if canExit then [Exit(p, n)] else [])
      ensures old(exchange.lookups) <= exchange.lookups && old(exchange.cancels) <= exchange.cancels
      ensures old(exchange.protectionCancels) <= exchange.protectionCancels
      ensures n == |AttemptsOf(store.View(), p)|
      ensures reply.Some? <==> canExit
      ensures exchange.replies == old(exchange.replies) + if reply.Some? then [(Exit(p, n), reply.value)] else []
      ensures stopped <==> reply == Some(ProcessDied)
      ensures !NeedsFollowUp(reply) ==>
        && exchange.lookups == old(exchange.lookups)
        && SliceOf(store.View(), p) == SliceOf(old(store.View()), p).(attempts :=
             AttemptsOf(old(store.View()), p)[n - 1 := AfterReply(AttemptsOf(old(store.View()), p)[n - 1], reply)])
      ensures NeedsFollowUp(reply) ==>
        && AskedSince(old(exchange.lookups), exchange.lookups, Exit(p, n))
        && (ToClose(store.View(), p) ==> Silent(old(exchange.lookups), exchange.lookups))
        && (Silent(old(exchange.lookups), exchange.lookups) && !PositionClosed(SliceOf(old(store.View()), p)) ==>
              AttemptsOf(store.View(), p)[n - 1] == AfterReply(AttemptsOf(old(store.View()), p)[n - 1], reply))
    {
      hide Inv, Forward, Advances, SliceOf, SameOthers, AskedSince, IsRefused, IsAskable, ToClose, Silent, PositionClosed;
      reply := None;
      if canExit {
        var said := Send(Exit(p, n), remaining);
        reply := Some(said);
      }
      stopped := reply == Some(ProcessDied);
      ghost var t0 := store.View();
      RecordExitReply(p, n, reply);
      if NeedsFollowUp(reply) {
        ghost var t1 := store.View();
        SameStandingAfter(t0, t1, p);
        FollowUpAskable(AttemptsOf(t1, p)[n - 1].state);
        var r;
        ghost var said;
        r, said := TargetedFlattenReconcile(p, n, true);
        AdvancesTransitive(t0, t1, store.View());
        SameOthersTransitive(t0, t1, store.View(), p);
      }
    }

    /** What the reply to an exit submission does to its attempt. */
    method RecordExitReply(p: PlanId, n: nat, reply: Option<SubmitReply>)
      requires Good()
      requires 1 <= n <= |AttemptsOf(store.View(), p)| && !AttemptsOf(store.View(), p)[n - 1].terminalConfirmed
      requires IsRefusalReply(reply) ==> IsRefused(exchange.truth, Exit(p, n), AttemptsOf(store.View(), p)[n - 1].requested)
      modifies this, store
      ensures Good() && old(run) <= run && Advances(old(store.View()), store.View())
      ensures SameOthers(old(store.View()), store.View(), p)
      ensures SliceOf(store.View(), p) == SliceOf(old(store.View()), p).(attempts :=
        AttemptsOf(old(store.View()), p)[n - 1 := AfterReply(AttemptsOf(old(store.View()), p)[n - 1], reply)])
      ensures |AttemptsOf(store.View(), p)| == |AttemptsOf(old(store.View()), p)|
      ensures AttemptsOf(store.View(), p)[n - 1] == AfterReply(AttemptsOf(old(store.View()), p)[n - 1], reply)
    {
      hide Inv, Forward, Advances, SliceOf, SameOthers, ClaimsNothing, IsRefusal, IsRefused;
      ghost var t0 := store.View();
      AdvancesReflexive(t0);
      SameOthersReflexive(t0, p);
      SliceParts(t0, p);
      if reply == Some(ProcessDied) {
        SameAttempt(t0, p, n);
        return;
      }
      var after := AfterReply(store.attempts[p][n - 1], reply);
      ReplyAllowed(SliceOf(t0, p), n, reply);
      RecordsOf(t0, p, n, exchange.protectionAccepted);
      PatchAttempt(p, n, after, IsRefusalReply(reply));
      AttemptPatched(t0, store.View(), p, n, after);
    }

    /** Send one order; the exchange has never seen its client id. */
    method Send(r: OrderRef, quantity: nat) returns (reply: SubmitReply)
      requires Good()
      requires r !in exchange.truth && r !in exchange.sent
      requires Sendable(store.View(), r, quantity)
      modifies this, exchange
      ensures Good() && old(run) <= run && exchange.sent == old(exchange.sent) + [r]
      ensures exchange.replies == old(exchange.replies) + [(r, reply)]
      ensures exchange.protectionCancels == old(exchange.protectionCancels)
      ensures exchange.lookups == old(exchange.lookups) && exchange.cancels == old(exchange.cancels)
      ensures reply.RefusedCode? || reply.PreRejected? ==> IsRefused(exchange.truth, r, quantity)
    {
      ghost var truth0, sent0 := exchange.truth, exchange.sent;
      hide Inv, Next, Path, Evolves, Sendable;
      ghost var before := truth0[r := Remote(quantity, 0, InFlight)];
      GoodIsWellFormed();
      SendStep(store.View(), truth0, sent0, r, quantity);
      Record(Sends(r, quantity), World(store.View(), before, sent0 + [r]));
      reply := exchange.Execute(r, quantity);
      EvolveStep(store.View(), before, exchange.truth, exchange.sent);
      Record(ExchangeMoves, Now());
    }

    // ----- submission -----

    /** Up to four reconciles after a submission, stopping at a final state. Without an answer nothing changes. */
    method NewOrderFastLane(p: PlanId) returns (r: EntryResult, ghost said: seq<EntryResult>)
      requires Good() && p in store.orders
      modifies this, store, exchange
      ensures Good() && old(run) <= run && Advances(old(store.View()), store.View())
      ensures SameOthers(old(store.View()), store.View(), p)
      ensures exchange.sent == old(exchange.sent) && exchange.replies == old(exchange.replies)
      ensures old(exchange.lookups) <= exchange.lookups
      ensures p in store.orders && (EntryState(r).Some? ==> EntryState(r).value == store.orders[p].state)
      ensures Pursues(|old(exchange.lookups)|, |exchange.lookups|, EntryState(r).Some? && IsTerminal(EntryState(r).value))
      ensures TurnsUntil(said, EndsLane, |old(exchange.lookups)|, |exchange.lookups|) && said[|said| - 1] == r
      ensures old(store.orders)[p].orderId.Some? ==> store.orders[p].orderId.Some?
      ensures Silent(old(exchange.lookups), exchange.lookups) ==>
        store.View() == old(store.View()) && r == EntryUnseen(old(store.orders)[p].state)
    {
      hide Inv, Forward, Advances, SliceOf, SameOthers, Silent, AskedSince, RowRefused, AnsweredWith, Good;
      ghost var t0, lookups0 := store.View(), exchange.lookups;
      AdvancesReflexive(t0);
      SameOthersReflexive(t0, p);
      NothingAsked(lookups0);
      r, said := EntryUnseen(store.orders[p].state), [];
      for i := 0 to TARGETED_LOOKUPS
        invariant |said| == i && (forall k :: 0 <= k < i ==> !EndsLane(said[k])) && (i > 0 ==> said[i - 1] == r)
        invariant Good() && old(run) <= run && Advances(t0, store.View()) && SameOthers(t0, store.View(), p)
        invariant exchange.sent == old(exchange.sent) && exchange.replies == old(exchange.replies)
        invariant p in store.orders && (EntryState(r).Some? ==> EntryState(r).value == store.orders[p].state)
        invariant |lookups0| + i <= |exchange.lookups| <= |lookups0| + 2 * i
        invariant lookups0 <= exchange.lookups
        invariant t0.orders[p].orderId.Some? ==> store.orders[p].orderId.Some?
        invariant Silent(lookups0, exchange.lookups) ==> store.View() == t0 && r == EntryUnseen(t0.orders[p].state)
      {
        ghost var t1, lookups1 := store.View(), exchange.lookups;
        r := ReconcilePlan(p);
        said := said + [r];
        SilentJoin(lookups0, lookups1, exchange.lookups);
        AdvancesTransitive(t0, t1, store.View());
        SameOthersTransitive(t0, t1, store.View(), p);
        if (r.EntryUnseen? || r.EntrySeen?) && (r.state.Filled? || r.state.Cancelled? || r.state.Rejected?) {
          return;
        }
      }
    }

    /** `_submit`: the entry executor runs exactly when the approval transaction moved the plan out
        of PLANNED, and then once. At most this plan's slot is taken. */
    method Submit(p: PlanId, requested: nat, lotNotional: Notional) returns (r: SubmitResult)
      requires Good()
      modifies this, store, exchange
      ensures Good() && old(run) <= run && Endures(old(store.View()), store.View())
      ensures SameOthers(old(store.View()), store.View(), p)
      ensures SlotPlans(store.View()) <= SlotPlans(old(store.View())) + {p}
      ensures r.Duplicate? <==> p in old(store.orders)
      ensures r.Duplicate? || r.NotPending? ==>
        store.View() == old(store.View()) && exchange.sent == old(exchange.sent) && exchange.replies == old(exchange.replies)
      ensures !(r.Duplicate? || r.NotPending?) <==>
        ApproveAndCreate(old(store.View()), p, requested, lotNotional).Written?
      ensures !(r.Duplicate? || r.NotPending?) ==>
        && exchange.sent == old(exchange.sent) + [Entry(p)]
        && p in store.orders && store.orders[p].requested == requested
      ensures r.PreSubmitRejected? || r.RefusedByExchange? ==> store.orders[p].state.Rejected?
      ensures r.Duplicate? || r.NotPending? ==> exchange.replies == old(exchange.replies)
      ensures !(r.Duplicate? || r.NotPending?) ==>
        SubmittedFor(p, requested, lotNotional, store.orders, r, old(exchange.replies), exchange.replies,
                     old(exchange.lookups), exchange.lookups)
      ensures ReservedNotional(store.orders) <=
        ReservedNotional(old(store.orders)) + if r.Duplicate? || r.NotPending? then 0.0 else requested as real * lotNotional
    {
      hide Inv, Forward, Advances, Endures, Path, Next, CancelsAfterClose, RecordsHold, RepliedAs, SameOthers, SliceOf;
      ghost var t0 := store.View();
      AdvancesReflexive(t0);
      SameOthersReflexive(t0, p);
      AdvancesEndures(t0, t0);
      if p in store.orders {
        SlotsGrowByOne(t0, t0, p);
        return Duplicate;
      }
      var approved := ApproveNow(p, requested, lotNotional);
      if !approved {
        SlotsGrowByOne(t0, store.View(), p);
        return NotPending;
      }
      ghost var t1 := store.View();
      NotYetSent(t1, exchange.truth, exchange.sent, p);
      var ok := Move(p, Submitted, None, false);
      assert ok;
      ghost var t2 := store.View();
      SameOthersTransitive(t0, t1, t2, p);
      var reply := Send(Entry(p), requested);
      r := RecordReply(p, reply);
      RepliedKinds(reply, t2.orders[p], store.orders[p], r, old(exchange.lookups), exchange.lookups);
      SameOthersTransitive(t0, t2, store.View(), p);
      SlotsGrowByOne(t0, store.View(), p);
      KeepsRequest(t2, store.View(), p);
      AdvancesTransitive(t1, t2, store.View());
      ApprovalReserves(t0, p, requested, lotNotional);
      AdvancesReserves(t1, store.View());
      AdvancesEndures(t1, store.View());
      EnduresTransitive(t0, t1, store.View());
    }

    method ApproveNow(p: PlanId, requested: nat, lotNotional: Notional) returns (ok: bool)
      requires Good()
      modifies this, store
      ensures Good() && old(run) <= run && SameOthers(old(store.View()), store.View(), p)
      ensures Endures(old(store.View()), store.View())
      ensures ok <==> ApproveAndCreate(old(store.View()), p, requested, lotNotional).Written?
      ensures !ok ==> store.View() == old(store.View())
      ensures ok ==> store.View() == ApproveAndCreate(old(store.View()), p, requested, lotNotional).tables
    {
      ghost var t0 := store.View();
      ok := store.Approve(p, requested, lotNotional);
      if ok {
        CreatedStep(t0, store.View(), exchange.truth, exchange.sent, p, requested, lotNotional);
        RecordApproval(Approves(p, requested, lotNotional), Now());
        CancelsStay(t0, store.View(), exchange.protectionCancels);
        CancelsStay(t0, store.View(), exchange.protectionAccepted);
      } else {
        AdvancesReflexive(t0);
        AdvancesEndures(t0, t0);
      }
    }

    /** What the reply to the entry submission does to the order. */
    method RecordReply(p: PlanId, reply: SubmitReply) returns (r: SubmitResult)
      requires Good()
      requires p in store.orders && store.orders[p].state.Submitted?
      requires IsRefusalReply(Some(reply)) ==> IsRefused(exchange.truth, Entry(p), store.orders[p].requested)
      modifies this, store, exchange
      ensures Good() && old(run) <= run && Advances(old(store.View()), store.View())
      ensures SameOthers(old(store.View()), store.View(), p)
      ensures exchange.sent == old(exchange.sent) && exchange.replies == old(exchange.replies)
      ensures p in store.orders
      ensures RepliedAs(reply, old(store.orders)[p], store.orders[p], r, old(exchange.lookups), exchange.lookups)
    {
      hide Inv, Forward, Advances, SliceOf, SameOthers, Silent, IsRefused, AskedOn, Moved, Good;
      ghost var t0 := store.View();
      AdvancesReflexive(t0);
      SameOthersReflexive(t0, p);
      match reply
      case ProcessDied =>
        r := Interrupted;
      case PreRejected =>
        var moved := Move(p, Rejected, None, true);
        r := PreSubmitRejected;
      case OtherError =>
        var moved := Move(p, Rejected, None, false);
        r := PreSubmitRejected;
      case RefusedCode =>
        var moved := Move(p, Rejected, None, true);
        r := RefusedByExchange;
      case Uncertain =>
        var lane := MoveAndAsk(p, SubmissionUnknown, None);
        r := if lane.EntrySeen? then Submission(lane) else SubmissionUnreconciled;
      case Accepted(orderId) =>
        var lane := MoveAndAsk(p, Submitted, Some(orderId));
        r := Submission(lane);
    }

    /** Record that the order may be at the exchange, and ask about it. */
    method MoveAndAsk(p: PlanId, state: OrderState, orderId: Option<Option<string>>) returns (lane: EntryResult)
      requires Good()
      requires p in store.orders && store.orders[p].state.Submitted? && (state.Submitted? || state.SubmissionUnknown?)
      modifies this, store, exchange
      ensures Good() && old(run) <= run && Advances(old(store.View()), store.View())
      ensures SameOthers(old(store.View()), store.View(), p)
      ensures exchange.sent == old(exchange.sent) && exchange.replies == old(exchange.replies)
      ensures p in store.orders && (EntryState(lane).Some? ==> EntryState(lane).value == store.orders[p].state)
      ensures Silent(old(exchange.lookups), exchange.lookups) ==>
        && lane == EntryUnseen(state)
        && store.orders[p] == old(store.orders)[p].(
             state := state, orderId := if orderId.Some? then orderId.value else old(store.orders)[p].orderId)
      ensures orderId.Some? && orderId.value.Some? ==> store.orders[p].orderId.Some?
      ensures AskedOn(old(store.orders)[p], store.orders[p], old(exchange.lookups), exchange.lookups)
    {
      hide Inv, Forward, Advances, SliceOf, SameOthers, Silent;
      ghost var t0 := store.View();
      var moved := Move(p, state, orderId, false);
      ghost var t1 := store.View();
      ghost var said;
      lane, said := NewOrderFastLane(p);
      AdvancesTransitive(t0, t1, store.View());
      SameOthersTransitive(t0, t1, store.View(), p);
      KeepsRequest(t1, store.View(), p);
    }
  }
}
