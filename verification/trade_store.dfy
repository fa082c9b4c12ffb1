/** The persistent store: one map per table, each write one committed transaction. */
module TradeStores {
  import opened Wrappers
  import opened OrderStates
  import opened Exchanges
  import opened TradeTables

  /** The elements of a set as a list without repetition. */
  method ListOf(s: set<PlanId>) returns (list: seq<PlanId>)
    ensures forall p :: p in list <==> p in s
    ensures forall i, j :: 0 <= i < j < |list| ==> list[i] != list[j]
  {
    list := [];
    var rest := s;
    while rest != {}
      invariant rest <= s
      invariant forall p :: p in list <==> p in s && p !in rest
      invariant forall i, j :: 0 <= i < j < |list| ==> list[i] != list[j]
      decreases |rest|
    {
      var p :| p in rest;
      list := list + [p];
      rest := rest - {p};
    }
  }

  class TradeStore {
    var plans: map<PlanId, PlanRow>
    var orders: map<PlanId, OrderRow>
    var positions: map<PlanId, PositionRow>
    var attempts: map<PlanId, seq<AttemptRow>>
    var fills: map<PlanId, map<FillKey, FillRow>>
    var trades: map<PlanId, TradeRow>

    function View(): Tables
      reads this
    {
      Tables(plans, orders, positions, attempts, fills, trades)
    }

    constructor ()
      ensures View() == EMPTY_TABLES
    {
      plans, orders, positions, attempts, fills, trades := map[], map[], map[], map[], map[], map[];
    }

    // ----- queries -----

    /** `managed_positions()`: the plans whose position is still managed. */
    method ManagedPositions() returns (ids: seq<PlanId>)
      ensures forall p :: p in ids <==> HasActivePosition(View(), p)
      ensures forall i, j :: 0 <= i < j < |ids| ==> ids[i] != ids[j]
    {
      ids := ListOf(set p | p in positions && IsManaged(positions[p].state));
    }

    method ActiveOrders() returns (ids: seq<PlanId>)
      ensures forall p :: p in ids <==> HasActiveOrder(View(), p)
      ensures forall i, j :: 0 <= i < j < |ids| ==> ids[i] != ids[j]
    {
      ids := ListOf(set p | p in orders && IsActive(orders[p].state));
    }

    /** The sum of a plan's persisted exit fills. */
    method ConfirmedExitQuantity(p: PlanId) returns (total: nat)
      ensures total == Total(FillsOf(View(), p))
    {
      var m := if p in fills then fills[p] else map[];
      total := 0;
      var rest := m;
      while rest != map[]
        invariant total + Total(rest) == Total(m)
        decreases |rest|
      {
        var k :| k in rest;
        TotalSplit(rest, k);
        total := total + rest[k].quantity;
        rest := rest - {k};
      }
    }

    method PositionSlotsInUse() returns (count: nat)
      ensures count == |SlotPlans(View())|
    {
      var managed := set p | p in positions && IsManaged(positions[p].state);
      var reserved := set p | p in orders && IsActive(orders[p].state);
      assert managed + reserved == SlotPlans(View());
      count := |managed + reserved|;
    }

    method ReservedEntryNotional() returns (reserved: real)
      ensures reserved == ReservedNotional(orders)
    {
      reserved := 0.0;
      var rest := orders;
      while rest != map[]
        invariant reserved + ReservedNotional(rest) == ReservedNotional(orders)
        decreases |rest|
      {
        var p :| p in rest;
        ReservedSplit(rest, p);
        reserved := reserved + ReservedBy(rest[p]);
        rest := rest - {p};
      }
    }

    /** Whether `flatten_intents(active_only=True)` lists anything. */
    method HasUnresolvedAttempt() returns (found: bool)
      ensures found <==> exists p, i :: p in attempts && 0 <= i < |attempts[p]| && IsUnresolved(attempts[p][i].state)
    {
      found := false;
      var rest := attempts.Keys;
      while rest != {}
        invariant rest <= attempts.Keys
        invariant found <==>
          exists p, i :: p in attempts && p !in rest && 0 <= i < |attempts[p]| && IsUnresolved(attempts[p][i].state)
        decreases |rest|
      {
        var p :| p in rest;
        var hit := exists i | 0 <= i < |attempts[p]| :: IsUnresolved(attempts[p][i].state);
        found := found || hit;
        rest := rest - {p};
      }
    }

    // ----- plans -----

    method InsertPlan(p: PlanId, expiresAt: int)
      modifies this
      ensures View() == SavePlan(old(View()), p, expiresAt)
    {
      if p !in plans {
        plans := plans[p := PlanRow(Planned, expiresAt)];
      }
    }

    method Reject(p: PlanId) returns (rejected: bool)
      modifies this
      ensures View() == RejectPlan(old(View()), p)
      ensures rejected <==> p in old(plans) && old(plans)[p].status.Planned?
    {
      rejected := p in plans && plans[p].status.Planned?;
      if rejected {
        plans := plans[p := plans[p].(status := Rejected)];
      }
    }

    // ----- orders -----

    method Approve(p: PlanId, requested: nat, lotNotional: Notional) returns (ok: bool)
      modifies this
      ensures ok <==> ApproveAndCreate(old(View()), p, requested, lotNotional).Written?
      ensures ok ==> View() == ApproveAndCreate(old(View()), p, requested, lotNotional).tables
      ensures !ok ==> View() == old(View())
    {
      ok := p in plans && plans[p].status.Planned? && p !in orders;
      if ok {
        plans := plans[p := plans[p].(status := Approved)];
        orders := orders[p := OrderRow(requested, 0, Approved, None, lotNotional)];
      }
    }

    method Transition(p: PlanId, s: OrderState, f: Patch) returns (ok: bool)
      modifies this
      ensures ok <==> p in old(orders) && Allowed(old(orders)[p].state, s)
      ensures ok ==> View() == TransitionOrder(old(View()), p, s, f).tables
      ensures !ok ==> View() == old(View())
    {
      ok := p in orders && Allowed(orders[p].state, s);
      if ok {
        orders := orders[p := PatchOrder(orders[p], s, f)];
        if p in plans {
          plans := plans[p := plans[p].(status := s)];
        }
      }
    }

    // ----- positions -----

    method PutPosition(p: PlanId, quantity: nat, s: OrderState, v: Verdict)
      modifies this
      ensures View() == UpsertPosition(old(View()), p, quantity, s, v)
    {
      var exitFilled := if p in positions then positions[p].exitFilled else 0;
      positions := positions[p := PositionRow(quantity, s, v.protected, v.ids, exitFilled)];
    }

    method MarkPartial(p: PlanId, filled: nat)
      modifies this
      ensures View() == MarkPartialExit(old(View()), p, filled)
    {
      if p in positions && IsManaged(positions[p].state) {
        positions := positions[p := positions[p].(state := ExitPartiallyFilled, exitFilled := filled)];
      }
    }

    method PutEntryFill(p: PlanId, price: real, quantity: nat)
      modifies this
      ensures View() == RecordEntryFill(old(View()), p, price, quantity)
    {
      if p !in trades {
        trades := trades[p := TradeRow(quantity, price, false)];
      } else if !trades[p].exited && trades[p].quantity < quantity {
        trades := trades[p := TradeRow(quantity, price, false)];
      }
    }

    method Close(p: PlanId, exitFilled: nat) returns (ok: bool)
      modifies this
      ensures ok <==> CloseTrade(old(View()), p, exitFilled).Written?
      ensures ok ==> View() == CloseTrade(old(View()), p, exitFilled).tables
      ensures !ok ==> View() == old(View())
    {
      ok := p in trades && p in positions && IsManaged(positions[p].state) &&
            p in orders && IsClosable(orders[p].state);
      if ok {
        trades := trades[p := trades[p].(exited := true)];
        positions := positions[p := positions[p].(state := Closed, exitFilled := exitFilled)];
        orders := orders[p := orders[p].(state := Closed)];
      }
    }

    // ----- flatten attempts and the exit ledger -----

    /** Inserts the next attempt; `n` is its number. */
    method InsertAttempt(p: PlanId, requested: nat) returns (n: nat)
      modifies this
      ensures View() == CreateAttempt(old(View()), p, requested)
      ensures n == |AttemptsOf(old(View()), p)| + 1
    {
      var before := if p in attempts then attempts[p] else [];
      n := |before| + 1;
      attempts := attempts[p := before + [AttemptRow(requested, 0, Prepared, None, false, false, map[])]];
    }

    method UpdateAttempt(p: PlanId, n: nat, a: AttemptRow)
      requires 1 <= n <= |AttemptsOf(View(), p)|
      modifies this
      ensures View() == PutAttempt(old(View()), p, n, a)
    {
      attempts := attempts[p := attempts[p][n - 1 := a]];
    }

    method PutFill(p: PlanId, k: FillKey, f: FillRow)
      modifies this
      ensures View() == UpsertFill(old(View()), p, k, f)
    {
      var before := if p in fills then fills[p] else map[];
      fills := fills[p := before[k := f]];
    }

    /** INSERT OR IGNORE of each fill in turn. */
    method PutProtectiveFills(p: PlanId, found: seq<ProtectiveFill>)
      modifies this
      ensures View() == RecordFills(old(View()), p, found)
    {
      var m := if p in fills then fills[p] else map[];
      for i := 0 to |found|
        invariant m == IgnoreInsert(FillsOf(View(), p), found[..i])
        invariant View() == old(View())
      {
        var k := ProtectiveTrade(found[i].key);
        assert found[..i + 1][..i] == found[..i];
        if k !in m {
          m := m[k := FillRow(found[i].quantity, found[i].price, found[i].timestamp)];
        }
      }
      assert found[..|found|] == found;
      fills := fills[p := m];
    }
  }
}
