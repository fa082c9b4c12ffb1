/** The flatten action of a session, from blocking entries to reporting FLAT. */
module SessionFlatten {
  import opened Wrappers
  import opened OrderStates
  import opened Exchanges
  import opened TradeTables
  import opened Protocol
  import opened ProtocolSteps
  import opened SliceEffects
  import opened TradeStores
  import opened ManagerRules
  import opened FlattenRules
  import opened OrderManagers
  import opened SessionControl
  import opened ProtocolRuns
  import opened FlatReports
  import opened StuckPositions

  datatype FlattenStatus = Flat | FlattenIncomplete | FlattenAborted | NotFlattening

  /** A cancel result that `_finish_flatten` counts as settled. */
  predicate IsResolved(r: CancelResult) {
    r.BlockedLocally? || r.state == Some(Cancelled)
  }

  /** The entry is known to be over: it was blocked before it was sent, or the exchange cancelled it. */
  ghost predicate AllSettled(cancelled: seq<CancelResult>) {
    forall k :: 0 <= k < |cancelled| ==>
      match cancelled[k]
      case BlockedLocally(_) => true
      case CancelReported(_, state) => state == Some(Cancelled)
  }

  /** FLAT is true of the exchange exactly when it is at rest and the order rows show all it filled. */
  ghost predicate TrueIffUpToDate(t: Tables, truth: Truth) {
    TrulyFlat(t, truth) <==> AtRest(truth) && UpToDate(t, truth)
  }

  /** The agent can be sure of FLAT exactly when everything it sent was confirmed to be at its end and nothing
      was rejected after a fill; and no position was stuck at any point of the run. */
  ghost predicate SureIffConfirmed(run: seq<World>, events: seq<Event>, limits: Limits) {
    && Run(run, events, limits)
    && (FlatIsSure(run, events, limits) <==> AllConfirmed(events, Last(run)) && NoRejectedFill(Last(run).tables))
    && forall i, p :: 0 <= i < |run| ==> !Stuck(SliceOf(run[i].tables, p))
  }

  lemma FlatRun(run: seq<World>, events: seq<Event>, limits: Limits)
    requires Run(run, events, limits) && LooksFlat(Last(run).tables)
    ensures SureIffConfirmed(run, events, limits)
  {
    hide LooksFlat, Stuck, Next, Fits, FlatIsSure, AllConfirmed, NoRejectedFill;
    FlatIsSureIff(run, events, limits);
    forall i, p | 0 <= i < |run| ensures !Stuck(SliceOf(run[i].tables, p)) {
      if Stuck(SliceOf(run[i].tables, p)) {
        StuckForEver(run, events, limits, i, |run| - 1, p);
        assert false;
      }
    }
  }

  /** `_finish_flatten`: FLAT exactly when nothing is managed, nothing is active, every cancel is
      settled and no attempt is unresolved. */
  method FinishFlatten(service: TradingService, manager: OrderManager, cancelled: seq<CancelResult>)
    returns (status: FlattenStatus)
    requires service.Valid() && manager.Good()
    modifies service`control, service`lastSessionWrite, service.core
    ensures service.Valid() && manager.Good() && old(manager.run) <= manager.run
    ensures status.Flat? <==>
      LooksFlat(manager.store.View()) && AllSettled(cancelled)
    ensures status.Flat? || status.FlattenIncomplete?
    ensures status.Flat? ==>
      && TablesFlat(manager.store.View(), manager.exchange.truth)
      && service.control.session.SessionStopped? && !service.core.AllowsNewEntries()
    ensures status.Flat? ==> TrueIffUpToDate(manager.store.View(), manager.exchange.truth)
    ensures status.Flat? ==> SureIffConfirmed(manager.run, manager.events, manager.limits)
    ensures status.FlattenIncomplete? ==> service.control == old(service.control)
  {
    ghost var t := manager.store.View();
    var remaining := manager.store.ManagedPositions();
    var active := manager.store.ActiveOrders();
    var unresolvedAttempt := manager.store.HasUnresolvedAttempt();
    var settled := forall k | 0 <= k < |cancelled| :: IsResolved(cancelled[k]);
    NothingListed(t, remaining, active, unresolvedAttempt);
    if remaining == [] && active == [] && settled && !unresolvedAttempt {
      FlatMeansFlat(t, manager.exchange.truth, manager.exchange.sent);
      FlatAtExchangeIff(t, manager.exchange.truth, manager.exchange.sent);
      FlatRun(manager.run, manager.events, manager.limits);
      service.ConfirmFlat();
      return Flat;
    }
    status := FlattenIncomplete;
  }

  /** The three lists of `_finish_flatten` are empty exactly when the tables look flat. */
  lemma NothingListed(t: Tables, remaining: seq<PlanId>, active: seq<PlanId>, unresolved: bool)
    requires forall p :: p in remaining <==> HasActivePosition(t, p)
    requires forall p :: p in active <==> HasActiveOrder(t, p)
    requires unresolved <==> exists p, i :: p in t.attempts && 0 <= i < |t.attempts[p]| && IsUnresolved(t.attempts[p][i].state)
    ensures LooksFlat(t) <==> remaining == [] && active == [] && !unresolved
  {
    if remaining == [] && active == [] && !unresolved {
      forall p | p in t.positions ensures !IsManaged(t.positions[p].state) {
        assert !HasActivePosition(t, p);
      }
      forall p | p in t.orders ensures !IsActive(t.orders[p].state) {
        assert !HasActiveOrder(t, p);
      }
    }
    if LooksFlat(t) {
      NothingIn(remaining);
      NothingIn(active);
    }
  }

  lemma NothingIn(list: seq<PlanId>)
    ensures (forall p :: p !in list) <==> list == []
  {
    if list != [] {
      assert list[0] in list;
    }
  }

  /** What leaving a session does to the entries that are still active: nothing is sent, each is pursued,
      and what is reported about it is true. */
  ghost predicate EntriesPursued(t: Tables, t': Tables, before: seq<OrderRef>, after: seq<OrderRef>,
                                 sent: seq<OrderRef>, results: seq<CancelResult>, lookups: seq<Asked>, lookups': seq<Asked>) {
    && (forall k :: 0 <= k < |results| ==> TrueResult(results[k], t'.orders, sent))
    && (forall p :: HasActiveOrder(t, p) ==>
          Pursued(p, t.orders[p], results, t'.orders, before, after, lookups, lookups'))
  }

  /** The pending entries of a session that was left before. */
  method CancelAfterLeaving(service: TradingService, manager: OrderManager) returns (cancelled: seq<CancelResult>)
    requires service.Valid() && manager.Good()
    requires service.control.session.SessionPaused? || service.control.session.SessionStopped?
    modifies manager, manager.store, manager.exchange
    ensures service.Valid() && manager.Good() && old(manager.run) <= manager.run
    ensures Advances(old(manager.store.View()), manager.store.View())
    ensures manager.exchange.sent == old(manager.exchange.sent)
    ensures EntriesPursued(old(manager.store.View()), manager.store.View(), old(manager.exchange.cancels),
                           manager.exchange.cancels, manager.exchange.sent, cancelled,
                           old(manager.exchange.lookups), manager.exchange.lookups)
  {
    hide Inv, Forward, Pursued, TrueResult;
    cancelled := manager.CancelPendingEntries();
  }

  /** `pause`: only a session that is not paused yet is left, and only then are the pending entries
      cancelled. */
  method PauseSession(service: TradingService, manager: OrderManager) returns (cancelled: seq<CancelResult>)
    requires service.Valid() && manager.Good()
    modifies service`control, service`lastSessionWrite, service.core, manager, manager.store, manager.exchange
    ensures service.Valid() && manager.Good() && old(manager.run) <= manager.run && service.control.session.SessionPaused?
    ensures Advances(old(manager.store.View()), manager.store.View())
    ensures manager.exchange.sent == old(manager.exchange.sent)
    ensures old(service.control).session.SessionPaused? ==>
      cancelled == [] && service.control == old(service.control) && manager.store.View() == old(manager.store.View())
    ensures !old(service.control).session.SessionPaused? ==>
      && !service.control.armed && !service.control.auto
      && EntriesPursued(old(manager.store.View()), manager.store.View(), old(manager.exchange.cancels),
                        manager.exchange.cancels, manager.exchange.sent, cancelled,
                        old(manager.exchange.lookups), manager.exchange.lookups)
  {
    hide Inv, Forward, Pursued, TrueResult;
    AdvancesReflexive(manager.store.View());
    cancelled := [];
    if !service.control.session.SessionPaused? {
      service.Pause();
      cancelled := CancelAfterLeaving(service, manager);
    }
  }

  /** `stop`: the pending entries are cancelled even when the session is already stopped. */
  method StopSession(service: TradingService, manager: OrderManager) returns (cancelled: seq<CancelResult>)
    requires service.Valid() && manager.Good()
    modifies service`control, service`lastSessionWrite, service.core, manager, manager.store, manager.exchange
    ensures service.Valid() && manager.Good() && old(manager.run) <= manager.run && service.control.session.SessionStopped?
    ensures old(service.control).session.SessionStopped? ==> service.control == old(service.control)
    ensures !old(service.control).session.SessionStopped? ==> !service.control.armed && !service.control.auto
    ensures Advances(old(manager.store.View()), manager.store.View())
    ensures manager.exchange.sent == old(manager.exchange.sent)
    ensures EntriesPursued(old(manager.store.View()), manager.store.View(), old(manager.exchange.cancels),
                           manager.exchange.cancels, manager.exchange.sent, cancelled,
                        old(manager.exchange.lookups), manager.exchange.lookups)
  {
    hide Inv, Forward, Pursued, TrueResult;
    service.Stop();
    cancelled := CancelAfterLeaving(service, manager);
  }

  /** One pass over everything the agent has: the entries that were active are pursued, and then, from world `start` of
      the run on, every open position has its turn. */
  ghost predicate FlattenPass(t: Tables, t': Tables, run: seq<World>, start: nat, cancelled: seq<CancelResult>, canExit: bool,
                              sent: seq<OrderRef>, cancels: seq<OrderRef>, asked: seq<OrderRef>, cancels': seq<OrderRef>,
                              lookups: seq<Asked>, looked: seq<Asked>, lookups': seq<Asked>)
  {
    && 0 < start <= |run| && asked <= cancels' && looked <= lookups'
    && var between := run[start - 1];
    && EntriesPursued(t, between.tables, cancels, asked, between.sent, cancelled, lookups, looked)
    && forall p :: HasActivePosition(between.tables, p) ==>
         Turned(between.tables, t', p, canExit, sent, asked, cancels', looked, lookups', start, run)
  }

  /** The recovery that a flatten begins with was refused: a row by the transition table, or the close of a covered
      position. */
  ghost predicate RecoveryRefused(t: Tables, lookups: seq<Asked>, lookups': seq<Asked>) {
    (exists p :: RowRefused(t, p, lookups, lookups')) || (exists p :: StuckOpen(t, p))
  }

  /** `flatten`: block entries, recover, cancel what is pending, advance every position, and only
      then look whether everything is flat. Entries are blocked whatever happens next. `recovered` is where in the run the
      recovery ended. */
  method FlattenSession(service: TradingService, manager: OrderManager)
    returns (status: FlattenStatus, ghost recovered: nat, ghost start: nat, ghost cancelled: seq<CancelResult>,
             ghost asked: seq<OrderRef>, ghost seen: seq<Asked>, ghost looked: seq<Asked>)
    requires service.Valid() && manager.Good()
    modifies service`control, service`lastSessionWrite, service.core, manager, manager.store, manager.exchange
    ensures service.Valid() && manager.Good() && old(manager.run) <= manager.run
    ensures Advances(old(manager.store.View()), manager.store.View())
    ensures !service.control.session.SessionRunning?
    ensures status.Flat? ==>
      && TablesFlat(manager.store.View(), manager.exchange.truth)
      && service.control.session.SessionStopped? && !service.core.AllowsNewEntries()
    ensures status.Flat? ==> TrueIffUpToDate(manager.store.View(), manager.exchange.truth)
    ensures status.Flat? ==> SureIffConfirmed(manager.run, manager.events, manager.limits)
    ensures !status.Flat? ==>
      && service.control == (if old(service.control).session.SessionFlattening? then old(service.control) else
           old(service.control).(session := SessionFlattening, runtime := AgentRunning, mode := ModeManual, auto := false, armed := false))
    ensures !status.NotFlattening?
    ensures status.FlattenAborted? ==>
      || RecoveryRefused(manager.store.View(), old(manager.exchange.lookups), manager.exchange.lookups)
      || CutShortAt(|old(manager.run)|, manager.run, old(manager.exchange.replies), manager.exchange.replies)
    ensures !status.FlattenAborted? ==>
      && |old(manager.run)| <= recovered <= |manager.run| && 0 < recovered && old(manager.exchange.lookups) <= seen
      && (forall p :: HasActiveOrder(old(manager.store.View()), p) ==> AskedSince(old(manager.exchange.lookups), seen, Entry(p)))
      && FlattenPass(manager.run[recovered - 1].tables, manager.store.View(), manager.run, start, cancelled, manager.canExit,
                     manager.exchange.sent, old(manager.exchange.cancels), asked, manager.exchange.cancels, seen, looked,
                     manager.exchange.lookups)
      && (status.Flat? <==> LooksFlat(manager.store.View()) && AllSettled(cancelled))
  {
    hide Inv, Forward, TablesFlat, LooksFlat, TrueIffUpToDate, SureIffConfirmed, Advances, AskedSince, RowRefused, StuckOpen,
         FlattenPass, AllSettled, CutShortAt, OrderManager.Good;
    service.BeginFlatten();
    status, recovered, start, cancelled, asked, seen, looked := RecoverAndContinue(service, manager);
  }

  /** The rest of it, in a session that is FLATTENING: recover, and then one pass over everything. */
  method RecoverAndContinue(service: TradingService, manager: OrderManager)
    returns (status: FlattenStatus, ghost recovered: nat, ghost start: nat, ghost cancelled: seq<CancelResult>,
             ghost asked: seq<OrderRef>, ghost seen: seq<Asked>, ghost looked: seq<Asked>)
    requires service.Valid() && manager.Good() && service.control.session.SessionFlattening?
    modifies service`control, service`lastSessionWrite, service.core, manager, manager.store, manager.exchange
    ensures service.Valid() && manager.Good() && old(manager.run) <= manager.run
    ensures Advances(old(manager.store.View()), manager.store.View())
    ensures status.Flat? ==>
      && TablesFlat(manager.store.View(), manager.exchange.truth)
      && service.control.session.SessionStopped? && !service.core.AllowsNewEntries()
    ensures status.Flat? ==> TrueIffUpToDate(manager.store.View(), manager.exchange.truth)
    ensures status.Flat? ==> SureIffConfirmed(manager.run, manager.events, manager.limits)
    ensures !status.Flat? ==> service.control == old(service.control)
    ensures !status.NotFlattening?
    ensures status.FlattenAborted? ==>
      || RecoveryRefused(manager.store.View(), old(manager.exchange.lookups), manager.exchange.lookups)
      || CutShortAt(|old(manager.run)|, manager.run, old(manager.exchange.replies), manager.exchange.replies)
    ensures !status.FlattenAborted? ==>
      && |old(manager.run)| <= recovered <= |manager.run| && 0 < recovered && old(manager.exchange.lookups) <= seen
      && (forall p :: HasActiveOrder(old(manager.store.View()), p) ==> AskedSince(old(manager.exchange.lookups), seen, Entry(p)))
      && FlattenPass(manager.run[recovered - 1].tables, manager.store.View(), manager.run, start, cancelled, manager.canExit,
                     manager.exchange.sent, old(manager.exchange.cancels), asked, manager.exchange.cancels, seen, looked,
                     manager.exchange.lookups)
      && (status.Flat? <==> LooksFlat(manager.store.View()) && AllSettled(cancelled))
  {
    hide Inv, Forward, TablesFlat, LooksFlat, TrueIffUpToDate, SureIffConfirmed, Advances, AskedSince, RowRefused, StuckOpen,
         FlattenPass, AllSettled, CutShortAt, ExitShown, OrderManager.Good;
    ghost var t0, run0, lookups0 := manager.store.View(), manager.run, manager.exchange.lookups;
    AdvancesReflexive(t0);
    recovered, start, cancelled, asked, seen, looked := 0, 0, [], [], [], [];
    var raised, results;
    ghost var mid;
    raised, results, mid := manager.RecoverActiveOrders();
    if raised {
      status := FlattenAborted;
      return;
    }
    seen := manager.exchange.lookups;
    manager.RunEndsNow();
    recovered := |manager.run|;
    ghost var run1, t1 := manager.run, manager.store.View();
    status, start, cancelled, asked, looked := ContinueFlatten(service, manager);
    assert manager.run[recovered - 1] == run1[recovered - 1];
    CutShortSince(|run0|, recovered, manager.run, old(manager.exchange.replies), manager.exchange.replies);
    AdvancesTransitive(t0, t1, manager.store.View());
  }

  lemma CutShortSince(from: nat, later: nat, run: seq<World>, before: seq<(OrderRef, SubmitReply)>,
                      after: seq<(OrderRef, SubmitReply)>)
    requires from <= later
    ensures CutShortAt(later, run, before, after) ==> CutShortAt(from, run, before, after)
  {
    hide CutShort, HasActivePosition;
  }

  /** `continue_flatten`: the part of a flatten that the scheduler repeats while the session is FLATTENING. */
  method ContinueFlatten(service: TradingService, manager: OrderManager)
    returns (status: FlattenStatus, ghost start: nat, ghost cancelled: seq<CancelResult>, ghost asked: seq<OrderRef>,
             ghost looked: seq<Asked>)
    requires service.Valid() && manager.Good()
    modifies service`control, service`lastSessionWrite, service.core, manager, manager.store, manager.exchange
    ensures service.Valid() && manager.Good() && old(manager.run) <= manager.run
    ensures Advances(old(manager.store.View()), manager.store.View())
    ensures status.NotFlattening? <==> !old(service.control).session.SessionFlattening?
    ensures status.NotFlattening? ==>
      && service.control == old(service.control) && manager.store.View() == old(manager.store.View())
      && manager.exchange.sent == old(manager.exchange.sent)
    ensures status.Flat? ==>
      && TablesFlat(manager.store.View(), manager.exchange.truth)
      && service.control.session.SessionStopped? && !service.core.AllowsNewEntries()
    ensures status.Flat? ==> TrueIffUpToDate(manager.store.View(), manager.exchange.truth)
    ensures status.Flat? ==> SureIffConfirmed(manager.run, manager.events, manager.limits)
    ensures !status.Flat? ==> service.control == old(service.control)
    ensures status.FlattenAborted? ==>
      CutShortAt(|old(manager.run)|, manager.run, old(manager.exchange.replies), manager.exchange.replies)
    ensures status.Flat? || status.FlattenIncomplete? ==>
      && |old(manager.run)| <= start
      && FlattenPass(old(manager.store.View()), manager.store.View(), manager.run, start, cancelled, manager.canExit,
                     manager.exchange.sent, old(manager.exchange.cancels), asked, manager.exchange.cancels,
                     old(manager.exchange.lookups), looked, manager.exchange.lookups)
      && (status.Flat? <==> LooksFlat(manager.store.View()) && AllSettled(cancelled))
  {
    hide Inv, Forward, TablesFlat, LooksFlat, TrueIffUpToDate, SureIffConfirmed, Advances, Pursued, TrueResult, Turned, CutShortAt,
         AllSettled, HasActivePosition, HasActiveOrder, OrderManager.Good;
    ghost var t0, run0 := manager.store.View(), manager.run;
    ghost var cancels0, lookups0, replies0 := manager.exchange.cancels, manager.exchange.lookups, manager.exchange.replies;
    AdvancesReflexive(t0);
    start, cancelled, asked, looked := 0, [], [], [];
    if !service.control.session.SessionFlattening? {
      status := NotFlattening;
      return;
    }
    var results := manager.CancelPendingEntries();
    manager.RunEndsNow();
    ghost var t1, run1, sent1 := manager.store.View(), manager.run, manager.exchange.sent;
    start, cancelled, asked, looked := |run1|, results, manager.exchange.cancels, manager.exchange.lookups;
    assert run1[start - 1].tables == t1;
    var stopped := manager.FlattenManagedPositions();
    assert manager.run[start - 1] == run1[start - 1];
    AdvancesTransitive(t0, t1, manager.store.View());
    if stopped {
      CutShortSince(|run0|, start, manager.run, replies0, manager.exchange.replies);
      status := FlattenAborted;
      return;
    }
    status := FinishFlatten(service, manager, results);
  }
}
