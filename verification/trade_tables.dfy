/** The rows of the trade database and every write on them, as functions from tables to tables.
    A write that the store refuses with an exception is a `Raised` result and changes nothing.
    Quantities are whole lots, so the source's 1e-12 tolerances are exact comparisons. */
module TradeTables {
  import opened Wrappers
  import opened OrderStates
  import opened Exchanges

  datatype PlanRow = PlanRow(status: OrderState, expiresAt: int)

  type Notional = x: real | x >= 0.0

  /** `lotNotional` is the expected execution price times the lot size. */
  datatype OrderRow = OrderRow(
    requested: nat, filled: nat, state: OrderState, orderId: Option<string>, lotNotional: Notional)

  datatype PositionRow = PositionRow(
    quantity: nat, state: OrderState, protected: bool, protectiveIds: seq<string>, exitFilled: nat)

  datatype AttemptState =
    | Prepared
    | Remotely(order: OrderState)
    | Failed
    | CleanupIncomplete
    | ReconciliationFailed

  /** `cleanup` maps a protective id to whether its cancel is recorded as CANCELLED. */
  datatype AttemptRow = AttemptRow(
    requested: nat, filled: nat, state: AttemptState, orderId: Option<string>,
    terminalConfirmed: bool, reconciliationComplete: bool, cleanup: map<string, bool>)

  /** Keys of the exit ledger: one row per flatten attempt, one per fill of a protective order. */
  datatype FillKey = FlattenFill(attempt: nat) | ProtectiveTrade(id: string)

  datatype FillRow = FillRow(quantity: nat, price: real, timestamp: int)

  datatype TradeRow = TradeRow(quantity: nat, entryPrice: real, exited: bool)

  datatype Tables = Tables(
    plans: map<PlanId, PlanRow>,
    orders: map<PlanId, OrderRow>,
    positions: map<PlanId, PositionRow>,
    attempts: map<PlanId, seq<AttemptRow>>,
    fills: map<PlanId, map<FillKey, FillRow>>,
    trades: map<PlanId, TradeRow>)

  const EMPTY_TABLES := Tables(map[], map[], map[], map[], map[], map[])

  datatype Write = Written(tables: Tables) | Raised

  // ----- reading -----

  /** Flatten attempts of a plan; attempt number n is at index n - 1. */
  function AttemptsOf(t: Tables, p: PlanId): seq<AttemptRow> {
    if p in t.attempts then t.attempts[p] else []
  }

  function FillsOf(t: Tables, p: PlanId): map<FillKey, FillRow> {
    if p in t.fills then t.fills[p] else map[]
  }

  predicate HasActivePosition(t: Tables, p: PlanId) {
    p in t.positions && IsManaged(t.positions[p].state)
  }

  predicate HasActiveOrder(t: Tables, p: PlanId) {
    p in t.orders && IsActive(t.orders[p].state)
  }

  /** The plans `position_slots_in_use` counts: managed inventory or an active order, once each. */
  function SlotPlans(t: Tables): set<PlanId> {
    (set p | p in t.positions && IsManaged(t.positions[p].state)) +
    (set p | p in t.orders && IsActive(t.orders[p].state))
  }

  /** An attempt that `flatten_intents(active_only=True)` lists. */
  predicate IsUnresolved(s: AttemptState) {
    !(s.Failed? || (s.Remotely? && IsTerminal(s.order)))
  }

  /** An attempt is listed unless it failed, or ended filled, cancelled or rejected. */
  lemma UnresolvedMeans(s: AttemptState)
    ensures !IsUnresolved(s) <==> s in {Failed, Remotely(Filled), Remotely(Cancelled), Remotely(Rejected)}
  {
  }

  /** Sum of the quantities of an exit ledger. */
  ghost function Total(m: map<FillKey, FillRow>): nat
    decreases |m|
  {
    if m == map[] then 0
    else
      var k :| k in m;
      m[k].quantity + Total(m - {k})
  }

  lemma {:induction false} TotalSplit(m: map<FillKey, FillRow>, k: FillKey)
    requires k in m
    ensures Total(m) == m[k].quantity + Total(m - {k})
    decreases |m|
  {
    var c :| c in m && Total(m) == m[c].quantity + Total(m - {c});
    if c != k {
      TotalSplit(m - {c}, k);
      TotalSplit(m - {k}, c);
      assert m - {c} - {k} == m - {k} - {c};
    }
  }

  /** The quantity recorded under key `k`, zero when there is no such row. */
  function Recorded(m: map<FillKey, FillRow>, k: FillKey): nat {
    if k in m then m[k].quantity else 0
  }

  /** An upsert changes the total by exactly the change of its own row. */
  lemma TotalUpsert(m: map<FillKey, FillRow>, k: FillKey, f: FillRow)
    ensures Total(m[k := f]) + Recorded(m, k) == Total(m) + f.quantity
  {
    TotalSplit(m[k := f], k);
    assert m[k := f] - {k} == m - {k};
    if k in m {
      TotalSplit(m, k);
    } else {
      assert m - {k} == m;
    }
  }

  // ----- writing -----

  function SavePlan(t: Tables, p: PlanId, expiresAt: int): Tables {
    if p in t.plans then t else t.(plans := t.plans[p := PlanRow(Planned, expiresAt)])
  }

  /** `reject_plan` and the expiry sweep: only a plan still Planned can be rejected. */
  function RejectPlan(t: Tables, p: PlanId): Tables {
    if p in t.plans && t.plans[p].status.Planned?
    then t.(plans := t.plans[p := t.plans[p].(status := Rejected)])
    else t
  }

  /** The approval boundary: one transaction that moves the plan and inserts its order. */
  function ApproveAndCreate(t: Tables, p: PlanId, requested: nat, lotNotional: Notional): Write {
    if p !in t.plans || !t.plans[p].status.Planned? || p in t.orders then Raised
    else Written(t.(
      plans := t.plans[p := t.plans[p].(status := Approved)],
      orders := t.orders[p := OrderRow(requested, 0, Approved, None, lotNotional)]))
  }

  /** The columns a transition may also set. */
  datatype Patch = Patch(filled: Option<nat>, orderId: Option<Option<string>>)

  const NO_PATCH := Patch(None, None)

  function PatchOrder(o: OrderRow, s: OrderState, f: Patch): OrderRow {
    o.(state := s,
       filled := if f.filled.Some? then f.filled.value else o.filled,
       orderId := if f.orderId.Some? then f.orderId.value else o.orderId)
  }

  function TransitionOrder(t: Tables, p: PlanId, s: OrderState, f: Patch): Write {
    if p !in t.orders || !Allowed(t.orders[p].state, s) then Raised
    else Written(t.(
      orders := t.orders[p := PatchOrder(t.orders[p], s, f)],
      plans := if p in t.plans then t.plans[p := t.plans[p].(status := s)] else t.plans))
  }

  function UpsertPosition(t: Tables, p: PlanId, quantity: nat, s: OrderState, v: Verdict): Tables {
    var exitFilled := if p in t.positions then t.positions[p].exitFilled else 0;
    t.(positions := t.positions[p := PositionRow(quantity, s, v.protected, v.ids, exitFilled)])
  }

  function MarkPartialExit(t: Tables, p: PlanId, filled: nat): Tables {
    if HasActivePosition(t, p)
    then t.(positions := t.positions[p := t.positions[p].(state := ExitPartiallyFilled, exitFilled := filled)])
    else t
  }

  /** Append the next flatten attempt in state PREPARED. */
  function CreateAttempt(t: Tables, p: PlanId, requested: nat): Tables {
    t.(attempts := t.attempts[p :=
      AttemptsOf(t, p) + [AttemptRow(requested, 0, Prepared, None, false, false, map[])]])
  }

  function PutAttempt(t: Tables, p: PlanId, n: nat, a: AttemptRow): Tables
    requires 1 <= n <= |AttemptsOf(t, p)|
  {
    t.(attempts := t.attempts[p := AttemptsOf(t, p)[n - 1 := a]])
  }

  function UpsertFill(t: Tables, p: PlanId, k: FillKey, f: FillRow): Tables {
    t.(fills := t.fills[p := FillsOf(t, p)[k := f]])
  }

  /** INSERT OR IGNORE of protective fills: a key that is already there keeps its row. */
  function IgnoreInsert(m: map<FillKey, FillRow>, fills: seq<ProtectiveFill>): map<FillKey, FillRow>
    decreases |fills|
  {
    if fills == [] then m
    else
      var f := fills[|fills| - 1];
      var before := IgnoreInsert(m, fills[..|fills| - 1]);
      if ProtectiveTrade(f.key) in before then before
      else before[ProtectiveTrade(f.key) := FillRow(f.quantity, f.price, f.timestamp)]
  }

  function RecordFills(t: Tables, p: PlanId, fills: seq<ProtectiveFill>): Tables {
    t.(fills := t.fills[p := IgnoreInsert(FillsOf(t, p), fills)])
  }

  /** `record_entry_fill`: insert, then grow an unexited trade to a larger quantity. */
  function RecordEntryFill(t: Tables, p: PlanId, price: real, quantity: nat): Tables {
    if p !in t.trades then t.(trades := t.trades[p := TradeRow(quantity, price, false)])
    else if !t.trades[p].exited && t.trades[p].quantity < quantity
    then t.(trades := t.trades[p := TradeRow(quantity, price, false)])
    else t
  }

  /** `close_trade`: the trade, the position and the order move to CLOSED in one transaction,
      and not through the transition table. */
  function CloseTrade(t: Tables, p: PlanId, exitFilled: nat): Write {
    if p !in t.trades || !HasActivePosition(t, p) || p !in t.orders || !IsClosable(t.orders[p].state)
    then Raised
    else Written(t.(
      trades := t.trades[p := t.trades[p].(exited := true)],
      positions := t.positions[p := t.positions[p].(state := Closed, exitFilled := exitFilled)],
      orders := t.orders[p := t.orders[p].(state := Closed)]))
  }

  // ----- notional reserved by entry orders -----

  function ReservedBy(o: OrderRow): real {
    if IsReserving(o.state) && o.filled < o.requested
    then (o.requested - o.filled) as real * o.lotNotional else 0.0
  }

  /** The six states in which an entry order may still fill. */
  ghost predicate IsPending(s: OrderState) {
    || s == Approved || s == Submitted || s == SubmissionUnknown
    || s == CancelRequested || s == Open || s == PartiallyFilled
  }

  /** A pending order reserves what it asked for less what it filled, at its price; any other order nothing. */
  lemma ReservedLaw(o: OrderRow)
    ensures IsPending(o.state) && o.filled <= o.requested ==>
      ReservedBy(o) + o.filled as real * o.lotNotional == o.requested as real * o.lotNotional
    ensures !IsPending(o.state) || o.requested <= o.filled ==> ReservedBy(o) == 0.0
    ensures ReservedBy(o) >= 0.0
  {
    if IsReserving(o.state) && o.filled < o.requested {
      assert (o.requested - o.filled) as real * o.lotNotional >= 0.0;
    }
  }

  ghost function ReservedNotional(orders: map<PlanId, OrderRow>): real
    decreases |orders|
  {
    if orders == map[] then 0.0
    else
      var p :| p in orders;
      ReservedBy(orders[p]) + ReservedNotional(orders - {p})
  }

  lemma {:induction false} ReservedSplit(orders: map<PlanId, OrderRow>, p: PlanId)
    requires p in orders
    ensures ReservedNotional(orders) == ReservedBy(orders[p]) + ReservedNotional(orders - {p})
    decreases |orders|
  {
    var c :| c in orders && ReservedNotional(orders) == ReservedBy(orders[c]) + ReservedNotional(orders - {c});
    if c != p {
      ReservedSplit(orders - {c}, p);
      ReservedSplit(orders - {p}, c);
      assert orders - {c} - {p} == orders - {p} - {c};
    }
  }

  /** One order is replaced: the sum changes by the change of its share. */
  lemma ReservedUpdate(orders: map<PlanId, OrderRow>, p: PlanId, o: OrderRow)
    requires p in orders
    ensures ReservedNotional(orders[p := o]) - ReservedBy(o) == ReservedNotional(orders) - ReservedBy(orders[p])
  {
    hide ReservedBy, ReservedNotional;
    ReservedSplit(orders, p);
    ReservedSplit(orders[p := o], p);
    assert orders[p := o] - {p} == orders - {p};
  }

  /** A fill of `k` more lots in a pending order that stays pending frees exactly their notional. */
  lemma FillFrees(orders: map<PlanId, OrderRow>, p: PlanId, o: OrderRow, k: nat)
    requires p in orders && IsPending(orders[p].state) && IsPending(o.state)
    requires o.requested == orders[p].requested && o.lotNotional == orders[p].lotNotional
    requires o.filled == orders[p].filled + k <= o.requested
    ensures ReservedNotional(orders[p := o]) == ReservedNotional(orders) - k as real * o.lotNotional
  {
    hide ReservedBy, ReservedNotional;
    ReservedUpdate(orders, p, o);
    ReservedLaw(o);
    ReservedLaw(orders[p]);
    assert o.filled as real == orders[p].filled as real + k as real;
  }

  /** A pending order that ends frees all that it had not filled. */
  lemma EndFrees(orders: map<PlanId, OrderRow>, p: PlanId, o: OrderRow)
    requires p in orders && IsPending(orders[p].state) && orders[p].filled <= orders[p].requested && !IsPending(o.state)
    ensures ReservedNotional(orders[p := o]) ==
      ReservedNotional(orders) - (orders[p].requested - orders[p].filled) as real * orders[p].lotNotional
  {
    hide ReservedBy, ReservedNotional;
    ReservedUpdate(orders, p, o);
    ReservedLaw(o);
    ReservedLaw(orders[p]);
  }

  lemma NewOrderReserves(requested: nat, lotNotional: Notional)
    ensures ReservedBy(OrderRow(requested, 0, Approved, None, lotNotional)) == requested as real * lotNotional
  {
    if requested == 0 {
      assert 0 as real * lotNotional == 0.0;
    }
  }

  /** Approving an order raises the reserved notional by exactly its own notional. */
  lemma ApprovalReserves(t: Tables, p: PlanId, requested: nat, lotNotional: Notional)
    requires ApproveAndCreate(t, p, requested, lotNotional).Written?
    ensures var t' := ApproveAndCreate(t, p, requested, lotNotional).tables;
            ReservedNotional(t'.orders) == ReservedNotional(t.orders) + requested as real * lotNotional
  {
    hide ReservedBy, ReservedNotional;
    var orders' := ApproveAndCreate(t, p, requested, lotNotional).tables.orders;
    ReservedSplit(orders', p);
    assert orders' - {p} == t.orders;
    NewOrderReserves(requested, lotNotional);
  }

  /** When no order reserves more than it did, the reserved notional has not grown. */
  lemma {:induction false} ReservedPointwise(a: map<PlanId, OrderRow>, b: map<PlanId, OrderRow>)
    requires a.Keys == b.Keys
    requires forall p :: p in a ==> ReservedBy(b[p]) <= ReservedBy(a[p])
    ensures ReservedNotional(b) <= ReservedNotional(a)
    decreases |a|
  {
    hide ReservedBy;
    if a == map[] {
      assert b == map[];
    } else {
      var p :| p in a;
      ReservedSplit(a, p);
      ReservedSplit(b, p);
      ReservedPointwise(a - {p}, b - {p});
    }
  }
}
