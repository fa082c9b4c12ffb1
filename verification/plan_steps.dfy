/** Saving and rejecting a plan, which touch nothing but the plan row. */
module PlanSteps {
  import opened Wrappers
  import opened OrderStates
  import opened Exchanges
  import opened TradeTables
  import opened Protocol
  import opened ProtocolSteps
  import opened ProtocolRuns
  import opened SliceEffects
  import opened TradeStores
  import opened ManagerRules
  import opened OrderManagers

  lemma SaveEffect(t: Tables, p: PlanId, expiresAt: int)
    ensures SameOthers(t, SavePlan(t, p, expiresAt), p)
    ensures var s := SliceOf(t, p);
            SliceOf(SavePlan(t, p, expiresAt), p) == (if s.plan.None? then s.(plan := Some(Planned)) else s)
  {
  }

  lemma RejectEffect(t: Tables, p: PlanId)
    ensures SameOthers(t, RejectPlan(t, p), p)
    ensures var s := SliceOf(t, p);
            SliceOf(RejectPlan(t, p), p) == (if s.plan == Some(Planned) then s.(plan := Some(Rejected)) else s)
  {
  }

  lemma PlanTrades(t: Tables, p: PlanId, expiresAt: int)
    ensures SavePlan(t, p, expiresAt).trades == RejectPlan(t, p).trades == t.trades
  {
  }

  /** Saving or rejecting a plan keeps everything. */
  lemma PlanStep(t: Tables, t': Tables, truth: Truth, sent: seq<OrderRef>, p: PlanId, expiresAt: int)
    requires Inv(t, truth, sent)
    requires t' == SavePlan(t, p, expiresAt) || t' == RejectPlan(t, p)
    ensures Inv(t', truth, sent) && Advances(t, t')
    ensures Next(World(t, truth, sent), PlanChanges(p), World(t', truth, sent))
  {
    PlanTrades(t, p, expiresAt);
    hide Inv, Forward, SliceOf, SavePlan, RejectPlan, PlanInv;
    PlanPart(World(t, truth, sent), p);
    SaveEffect(t, p, expiresAt);
    RejectEffect(t, p);
    OrderHasPlan(t, truth, sent, p);
    PlanOnlyKeeps(p, SliceOf(t, p), SliceOf(t', p), truth);
    Step(t, t', truth, sent, p);
  }

  method SavePlanSafely(manager: OrderManager, p: PlanId, expiresAt: int)
    requires manager.Good()
    modifies manager, manager.store
    ensures manager.Good() && old(manager.run) <= manager.run && Advances(old(manager.store.View()), manager.store.View())
    ensures manager.store.View() == SavePlan(old(manager.store.View()), p, expiresAt)
  {
    ghost var t0 := manager.store.View();
    manager.store.InsertPlan(p, expiresAt);
    PlanStep(t0, manager.store.View(), manager.exchange.truth, manager.exchange.sent, p, expiresAt);
    manager.Record(PlanChanges(p), manager.Now());
  }

  method RejectPlanSafely(manager: OrderManager, p: PlanId)
    requires manager.Good()
    modifies manager, manager.store
    ensures manager.Good() && old(manager.run) <= manager.run && Advances(old(manager.store.View()), manager.store.View())
    ensures manager.store.View() == RejectPlan(old(manager.store.View()), p)
  {
    ghost var t0 := manager.store.View();
    var rejected := manager.store.Reject(p);
    PlanStep(t0, manager.store.View(), manager.exchange.truth, manager.exchange.sent, p, 0);
    manager.Record(PlanChanges(p), manager.Now());
  }
}
