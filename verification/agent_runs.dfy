/** The agent as a whole: any schedule of its operations, against an exchange that does what it
    likes between and during them, with the process dying at any submission. */
module AgentRuns {
  import opened Wrappers
  import opened OrderStates
  import opened Exchanges
  import opened TradeTables
  import opened Protocol
  import opened ProtocolSteps
  import opened ProtocolRuns
  import opened SliceEffects
  import opened TradeStores
  import opened ManagerRules
  import opened FlattenRules
  import opened OrderManagers
  import opened PlanSteps
  import opened Pricing
  import opened Orchestration

  datatype Command =
    | SavesPlan(plan: PlanId, expiresAt: int)
    | RejectsPlan(plan: PlanId)
    | Approves(plan: PlanId, request: Request)
    | Cancels(plan: PlanId)
    | Reconciles(plan: PlanId)
    | CancelsPending
    | Recovers
    | Flattens

  /** What holds of the agent after any schedule. */
  ghost predicate Safe(t: Tables, truth: Truth, sent: seq<OrderRef>, maxOpen: nat) {
    && Inv(t, truth, sent)
    && |SlotPlans(t)| <= maxOpen
    && forall p :: p in t.positions ==> Sold(truth, p, |AttemptsOf(t, p)|) <= t.positions[p].quantity
  }

  lemma SafeFromInv(t: Tables, truth: Truth, sent: seq<OrderRef>, maxOpen: nat)
    requires Inv(t, truth, sent) && |SlotPlans(t)| <= maxOpen
    ensures Safe(t, truth, sent, maxOpen)
  {
    forall p | p in t.positions ensures Sold(truth, p, |AttemptsOf(t, p)|) <= t.positions[p].quantity {
      NoOversell(t, truth, sent, p);
    }
  }

  /** No oversell, and position and order CLOSED together, only when exit fills cover the quantity. */
  ghost predicate SafeWorld(w: World, p: PlanId) {
    p in w.tables.positions ==>
      && Sold(w.truth, p, |AttemptsOf(w.tables, p)|) <= w.tables.positions[p].quantity <= FilledOf(w.truth, Entry(p))
      && p in w.tables.orders
      && (w.tables.positions[p].state.Closed? <==> w.tables.orders[p].state.Closed?)
      && (w.tables.positions[p].state.Closed? ==> w.tables.positions[p].quantity <= Total(FillsOf(w.tables, p)))
  }

  /** What a command did: a plan is saved or rejected as the store does it, an approval sends its entry exactly when it has
      to, a cancel or a reconcile touches its own plan, cancelling what is pending blocks what was never sent, and
      nothing but an approval or a flatten sends anything. */
  ghost predicate Did(c: Command, rules: Rules, t: Tables, t': Tables, sent: seq<OrderRef>, sent': seq<OrderRef>) {
    match c
    case SavesPlan(p, expiresAt) => t' == SavePlan(t, p, expiresAt) && sent' == sent
    case RejectsPlan(p) => t' == RejectPlan(t, p) && sent' == sent
    case Approves(p, request) =>
      sent' == sent + if IsOpen(request, t, p) && HasTerms(request, rules, t, p) && request.agrees && request.authorized
                      then [Entry(p)] else []
    case Cancels(p) => SameOthers(t, t', p) && sent' == sent
    case Reconciles(p) => SameOthers(t, t', p) && sent' == sent
    case CancelsPending =>
      && sent' == sent
      && forall p :: HasActiveOrder(t, p) && t.orders[p].state.Approved? ==> p in t'.orders && t'.orders[p].state.Rejected?
    case Recovers => sent' == sent
    case Flattens => sent <= sent'
  }

  lemma BlockedAll(t: Tables, t': Tables, results: seq<CancelResult>, sent: seq<OrderRef>, before: seq<OrderRef>,
                   after: seq<OrderRef>, lookups: seq<Asked>, lookups': seq<Asked>)
    requires forall k :: 0 <= k < |results| ==> TrueResult(results[k], t'.orders, sent)
    requires forall p :: HasActiveOrder(t, p) ==>
      Pursued(p, t.orders[p], results, t'.orders, before, after, lookups, lookups')
    ensures forall p :: HasActiveOrder(t, p) && t.orders[p].state.Approved? ==> p in t'.orders && t'.orders[p].state.Rejected?
  {
    forall p | HasActiveOrder(t, p) && t.orders[p].state.Approved? ensures p in t'.orders && t'.orders[p].state.Rejected? {
      assert BlockedLocally(p) in results;
    }
  }

  /** One command, under one set of rules. */
  method RunCommand(manager: OrderManager, c: Command, rules: Rules)
    requires manager.Good() && (c.Approves? ==> c.request.snapshot.market.instrument.minSize > 0.0)
    requires |SlotPlans(manager.store.View())| <= rules.maxOpenPositions
    modifies manager, manager.store, manager.exchange
    ensures manager.Good() && old(manager.run) <= manager.run
    ensures |SlotPlans(manager.store.View())| <= rules.maxOpenPositions
    ensures Endures(old(manager.store.View()), manager.store.View())
    ensures Did(c, rules, old(manager.store.View()), manager.store.View(), old(manager.exchange.sent), manager.exchange.sent)
  {
    hide Inv, Forward, Advances, Endures, SlotPlans, Pursued, TrueResult, IsOpen, HasTerms, SafeTerms, SavePlan, RejectPlan, SameOthers,
         HasActiveOrder, OrderManager.Good;
    var store := manager.store;
    ghost var t0, sent0, cancels0, lookups0 := store.View(), manager.exchange.sent, manager.exchange.cancels, manager.exchange.lookups;
    NoChange(t0);
    AdvancesReflexive(t0);
    match c {
      case SavesPlan(p, expiresAt) =>
        SavePlanSafely(manager, p, expiresAt);
      case RejectsPlan(p) =>
        RejectPlanSafely(manager, p);
      case Approves(p, request) =>
        var r := ApprovePlan(manager, p, request, rules);
        return;
      case Cancels(p) =>
        var r := manager.Cancel(p);
      case Reconciles(p) =>
        var r := manager.ReconcilePlan(p);
      case CancelsPending =>
        var r := manager.CancelPendingEntries();
        BlockedAll(t0, store.View(), r, manager.exchange.sent, cancels0, manager.exchange.cancels, lookups0, manager.exchange.lookups);
      case Recovers =>
        ghost var mid;
        var raised, results;
        raised, results, mid := manager.RecoverActiveOrders();
      case Flattens =>
        var r := manager.FlattenManagedPositions();
    }
    AdvancesEndures(t0, store.View());
    AdvancesFreesSlots(t0, store.View());
    SubsetSize(SlotPlans(store.View()), SlotPlans(t0));
  }

  /** The run shows each command of the schedule in turn, between two marks. */
  ghost predicate Shows(run: seq<World>, marks: seq<nat>, schedule: seq<Command>, n: nat, rules: Rules) {
    && n <= |schedule| && |marks| == n + 1 && marks[0] == 0
    && (forall i :: 0 <= i <= n ==> marks[i] < |run|)
    && forall i :: 0 <= i < n ==> marks[i] <= marks[i + 1] && DidBetween(schedule[i], rules, run[marks[i]], run[marks[i + 1]])
  }

  ghost predicate DidBetween(c: Command, rules: Rules, w: World, w': World) {
    Did(c, rules, w.tables, w'.tables, w.sent, w'.sent)
  }

  lemma ShowsMore(run: seq<World>, run': seq<World>, marks: seq<nat>, schedule: seq<Command>, n: nat, rules: Rules)
    requires Shows(run, marks, schedule, n, rules) && n < |schedule| && run <= run' && marks[n] == |run| - 1
    requires 0 < |run| && DidBetween(schedule[n], rules, run'[|run| - 1], run'[|run'| - 1])
    ensures Shows(run', marks + [|run'| - 1], schedule, n + 1, rules)
  {
    hide DidBetween;
    var more := marks + [|run'| - 1];
    assert forall i :: 0 <= i < |run| ==> run'[i] == run[i];
    forall i | 0 <= i < n + 1
      ensures more[i] <= more[i + 1] && DidBetween(schedule[i], rules, run'[more[i]], run'[more[i + 1]])
    {
      if i < n {
        assert run'[marks[i]] == run[marks[i]] && run'[marks[i + 1]] == run[marks[i + 1]];
      }
    }
  }

  /** An agent with an empty store, at an exchange that has seen nothing. */
  method Fresh(canExit: bool) returns (manager: OrderManager)
    ensures fresh(manager) && fresh(manager.store) && fresh(manager.exchange) && manager.Good()
    ensures manager.store.View() == EMPTY_TABLES && SlotPlans(EMPTY_TABLES) == {} && manager.run == [INITIAL_WORLD]
    ensures manager.exchange.sent == [] && manager.canExit == canExit
  {
    hide Path, Next;
    var store := new TradeStore();
    var exchange := new Exchange();
    manager := new OrderManager(store, exchange, canExit);
    InitiallyGood();
  }

  /** The commands of a schedule in turn. */
  method RunAll(manager: OrderManager, schedule: seq<Command>, rules: Rules) returns (ghost marks: seq<nat>)
    requires manager.Good() && |SlotPlans(manager.store.View())| <= rules.maxOpenPositions && |manager.run| == 1
    requires forall c :: c in schedule && c.Approves? ==> c.request.snapshot.market.instrument.minSize > 0.0
    modifies manager, manager.store, manager.exchange
    ensures manager.Good() && |SlotPlans(manager.store.View())| <= rules.maxOpenPositions
    ensures Shows(manager.run, marks, schedule, |schedule|, rules) && marks[|schedule|] == |manager.run| - 1
  {
    hide *;
    marks := [0];
    ShowsNothing(manager.run, schedule, rules);
    for i := 0 to |schedule|
      invariant manager.Good() && |SlotPlans(manager.store.View())| <= rules.maxOpenPositions
      invariant Shows(manager.run, marks, schedule, i, rules) && |marks| == i + 1 && marks[i] == |manager.run| - 1
    {
      ghost var before := manager.run;
      RunOne(manager, schedule[i], rules);
      ShowsMore(before, manager.run, marks, schedule, i, rules);
      marks := marks + [|manager.run| - 1];
    }
  }

  method RunOne(manager: OrderManager, c: Command, rules: Rules)
    requires manager.Good() && (c.Approves? ==> c.request.snapshot.market.instrument.minSize > 0.0)
    requires |SlotPlans(manager.store.View())| <= rules.maxOpenPositions
    modifies manager, manager.store, manager.exchange
    ensures manager.Good() && |SlotPlans(manager.store.View())| <= rules.maxOpenPositions
    ensures 0 < |old(manager.run)| <= |manager.run| && old(manager.run) <= manager.run
    ensures DidBetween(c, rules, manager.run[|old(manager.run)| - 1], manager.run[|manager.run| - 1])
  {
    hide *;
    ghost var before := manager.run;
    manager.RunEndsNow();
    RunCommand(manager, c, rules);
    manager.RunEndsNow();
    assert manager.run[|before| - 1] == before[|before| - 1];
    DidAt(c, rules, before[|before| - 1], manager.run[|manager.run| - 1]);
  }

  lemma ShowsNothing(run: seq<World>, schedule: seq<Command>, rules: Rules)
    requires |run| == 1
    ensures Shows(run, [0], schedule, 0, rules)
  {
  }

  lemma DidAt(c: Command, rules: Rules, w: World, w': World)
    requires Did(c, rules, w.tables, w'.tables, w.sent, w'.sent)
    ensures DidBetween(c, rules, w, w')
  {
    hide Did;
  }

  /** Any schedule, from an empty store and an exchange that has seen nothing. */
  method AnySchedule(schedule: seq<Command>, rules: Rules, canExit: bool) returns (manager: OrderManager, ghost marks: seq<nat>)
    requires forall c :: c in schedule && c.Approves? ==> c.request.snapshot.market.instrument.minSize > 0.0
    ensures fresh(manager.store) && fresh(manager.exchange)
    ensures manager.Good()
    ensures Safe(manager.store.View(), manager.exchange.truth, manager.exchange.sent, rules.maxOpenPositions)
    ensures Run(manager.run, manager.events, manager.limits) && Last(manager.run) == manager.Now()
    ensures Shows(manager.run, marks, schedule, |schedule|, rules) && marks[|schedule|] == |manager.run| - 1
    ensures forall i, p :: 0 <= i < |manager.run| ==> SafeWorld(manager.run[i], p)
  {
    hide Shows, Inv, CancelsAfterClose, RecordsHold, Path, Next, SafeWorld, Safe;
    manager := Fresh(canExit);
    marks := RunAll(manager, schedule, rules);
    SafeFromInv(manager.store.View(), manager.exchange.truth, manager.exchange.sent, rules.maxOpenPositions);
    ghost var run, events, limits := manager.run, manager.events, manager.limits;
    forall i, p | 0 <= i < |run| ensures SafeWorld(run[i], p) {
      SafeAt(run, events, limits, i, p);
    }
  }

  lemma SafeAt(run: seq<World>, events: seq<Event>, limits: Limits, i: nat, p: PlanId)
    requires Run(run, events, limits) && i < |run|
    ensures SafeWorld(run[i], p)
  {
    hide Path;
    EveryRunIsSafe(run, events, limits, i, p);
  }

  /** Any number of cleanup retries of one attempt: an id that is recorded CANCELLED stays recorded
      and is never sent to the exchange again. */
  method RetryCleanup(manager: OrderManager, p: PlanId, n: nat, retries: nat)
    requires manager.Good() && PositionClosed(SliceOf(manager.store.View(), p))
    requires 1 <= n <= |AttemptsOf(manager.store.View(), p)|
    modifies manager, manager.store, manager.exchange
    ensures manager.Good() && old(manager.run) <= manager.run
    ensures old(manager.exchange.protectionCancels) <= manager.exchange.protectionCancels
    ensures forall k :: |old(manager.exchange.protectionCancels)| <= k < |manager.exchange.protectionCancels| ==>
      !RecordedFor(old(SliceOf(manager.store.View(), p)), n, manager.exchange.protectionCancels[k].1)
  {
    ghost var s0 := SliceOf(manager.store.View(), p);
    ghost var log0 := manager.exchange.protectionCancels;
    for i := 0 to retries
      invariant manager.Good() && old(manager.run) <= manager.run && PositionClosed(SliceOf(manager.store.View(), p))
      invariant 1 <= n <= |AttemptsOf(manager.store.View(), p)|
      invariant SliceOf(manager.store.View(), p).position == s0.position
      invariant forall id :: RecordedFor(s0, n, id) ==> RecordedFor(SliceOf(manager.store.View(), p), n, id)
      invariant log0 <= manager.exchange.protectionCancels
      invariant forall k :: |log0| <= k < |manager.exchange.protectionCancels| ==>
        !RecordedFor(s0, n, manager.exchange.protectionCancels[k].1)
    {
      hide Inv, Forward;
      var r := manager.CleanupFlattenProtection(p, n);
    }
  }

  /** `id` is a protective id of the position and its cancel is recorded with attempt `n`. */
  predicate RecordedFor(s: Slice, n: nat, id: string) {
    && s.position.Some? && id in s.position.value.protectiveIds
    && 1 <= n <= |s.attempts| && IsCancelled(s.attempts[n - 1].cleanup, id)
  }
}
