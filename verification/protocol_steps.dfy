/** The atomic steps of the protocol, each as a relation between what the tables said about a plan
    before and after, and the proof that each keeps the protocol invariant and only moves forward. */
module ProtocolSteps {
  import opened Wrappers
  import opened OrderStates
  import opened Exchanges
  import opened TradeTables
  import opened Protocol

  /** A plan counts against the open position limit. */
  predicate UsesSlot(s: Slice) {
    || (s.position.Some? && IsManaged(s.position.value.state))
    || (s.order.Some? && IsActive(s.order.value.state))
  }

  predicate PositionClosed(s: Slice) {
    s.position.Some? && s.position.value.state.Closed?
  }

  /** Nothing is ever taken back: rows stay, quantities grow, requests and their prices are fixed, the row of a
      protective fill never changes, and a CLOSED position and its order stay as they are. */
  ghost predicate Keeps(s: Slice, s': Slice) {
    && (s.order.Some? ==>
          && s'.order.Some? && s'.order.value.requested == s.order.value.requested
          && s'.order.value.lotNotional == s.order.value.lotNotional
          && s.order.value.filled <= s'.order.value.filled)
    && (s.position.Some? ==> s'.position.Some? && s.position.value.quantity <= s'.position.value.quantity)
    && (PositionClosed(s) ==> s'.position == s.position && s'.order == s.order)
    && |s.attempts| <= |s'.attempts|
    && (forall i :: 0 <= i < |s.attempts| ==> s'.attempts[i].requested == s.attempts[i].requested)
    && (forall k :: k in s.fills ==> k in s'.fills && s.fills[k].quantity <= s'.fills[k].quantity)
    && (forall id :: ProtectiveTrade(id) in s.fills ==> s'.fills[ProtectiveTrade(id)] == s.fills[ProtectiveTrade(id)])
  }

  /** The unfilled part of the plan's entry order counts as reserved notional. */
  predicate Reserves(s: Slice) {
    s.order.Some? && IsReserving(s.order.value.state)
  }

  /** Besides, no order appears, no slot is taken and no notional is reserved. */
  ghost predicate Forward(s: Slice, s': Slice) {
    && Keeps(s, s')
    && (s'.order.Some? ==> s.order.Some?)
    && (UsesSlot(s') ==> UsesSlot(s))
    && (Reserves(s') ==> Reserves(s))
  }

  ghost predicate Endures(t: Tables, t': Tables) {
    forall p :: Keeps(SliceOf(t, p), SliceOf(t', p))
  }

  ghost predicate Advances(t: Tables, t': Tables) {
    forall p :: Forward(SliceOf(t, p), SliceOf(t', p))
  }

  lemma KeepsTransitive(a: Slice, b: Slice, c: Slice)
    requires Keeps(a, b) && Keeps(b, c)
    ensures Keeps(a, c)
  {
    forall k | k in a.fills ensures k in c.fills && a.fills[k].quantity <= c.fills[k].quantity {
      assert k in b.fills;
    }
  }

  lemma EnduresTransitive(t: Tables, t1: Tables, t2: Tables)
    requires Endures(t, t1) && Endures(t1, t2)
    ensures Endures(t, t2)
  {
    forall p ensures Keeps(SliceOf(t, p), SliceOf(t2, p)) {
      KeepsTransitive(SliceOf(t, p), SliceOf(t1, p), SliceOf(t2, p));
    }
  }

  lemma AdvancesEndures(t: Tables, t': Tables)
    requires Advances(t, t')
    ensures Endures(t, t')
  {
    forall p ensures Keeps(SliceOf(t, p), SliceOf(t', p)) {
      assert Forward(SliceOf(t, p), SliceOf(t', p));
    }
  }

  lemma AdvancesTransitive(t: Tables, t1: Tables, t2: Tables)
    requires Advances(t, t1) && Advances(t1, t2)
    ensures Advances(t, t2)
  {
    forall p ensures Forward(SliceOf(t, p), SliceOf(t2, p)) {
      assert Forward(SliceOf(t, p), SliceOf(t1, p)) && Forward(SliceOf(t1, p), SliceOf(t2, p));
      KeepsTransitive(SliceOf(t, p), SliceOf(t1, p), SliceOf(t2, p));
    }
  }

  /** Steps that only advance never raise the reserved notional. */
  lemma AdvancesReserves(t: Tables, t': Tables)
    requires Advances(t, t')
    ensures ReservedNotional(t'.orders) <= ReservedNotional(t.orders)
  {
    forall p ensures p in t.orders <==> p in t'.orders {
      assert Forward(SliceOf(t, p), SliceOf(t', p));
    }
    forall p | p in t.orders ensures ReservedBy(t'.orders[p]) <= ReservedBy(t.orders[p]) {
      assert Forward(SliceOf(t, p), SliceOf(t', p));
      LessReserved(t.orders[p], t'.orders[p]);
    }
    ReservedPointwise(t.orders, t'.orders);
  }

  lemma LessReserved(o: OrderRow, o': OrderRow)
    requires o'.requested == o.requested && o'.lotNotional == o.lotNotional && o.filled <= o'.filled
    requires IsReserving(o'.state) ==> IsReserving(o.state)
    ensures ReservedBy(o') <= ReservedBy(o)
  {
    assert ReservedBy(o) >= 0.0;
    if IsReserving(o'.state) && o'.filled < o'.requested {
      assert (o.requested - o'.filled) as real * o.lotNotional <= (o.requested - o.filled) as real * o.lotNotional;
    }
  }

  /** The step lemma used by every operation: one plan moved, it kept its part and went forward. */
  lemma Step(t: Tables, t': Tables, truth: Truth, sent: seq<OrderRef>, p: PlanId)
    requires Inv(t, truth, sent)
    requires forall q :: q != p ==> SliceOf(t', q) == SliceOf(t, q)
    requires PlanInv(p, SliceOf(t', p), truth) && Forward(SliceOf(t, p), SliceOf(t', p))
    ensures Inv(t', truth, sent) && Advances(t, t')
  {
    OnePlan(t, t', truth, sent, p);
  }

  // ----- an entry row is applied -----

  predicate HasManagedFill(state: OrderState, filled: nat) {
    filled > 0 && (state.PartiallyFilled? || state.Filled? || state.Cancelled?)
  }

  /** The order state after a row: a full fill without verified protection is unprotected. */
  function LifecycleState(state: OrderState, filled: nat, v: Verdict): OrderState {
    if HasManagedFill(state, filled) && state.Filled? && !v.protected then PositionUnprotected else state
  }

  /** The position state: a cancelled order leaves a partial position; what is filled or cancelled
      without verified protection is unprotected. */
  function ManagedState(state: OrderState, v: Verdict): OrderState {
    if !v.protected && (state.Filled? || state.Cancelled?) then PositionUnprotected
    else if state.Cancelled? then PartiallyFilled
    else state
  }

  /** `_apply_remote_order` took a row: the order and its position both show the row's quantity. */
  ghost predicate Applied(s: Slice, s': Slice, row: Row, v: Verdict) {
    && s.order.Some?
    && var o := s.order.value;
    && var state := MapState(row, o.requested);
    && Allowed(o.state, state)
    && s'.order == Some(o.(
         state := LifecycleState(state, row.filled, v), filled := row.filled,
         orderId := if row.orderId.Some? then row.orderId else o.orderId))
    && (s.plan.Some? ==> s'.plan.Some? && !s'.plan.value.Planned?)
    && s'.attempts == s.attempts && s'.fills == s.fills
    && if HasManagedFill(state, row.filled) then
         s'.position == Some(PositionRow(row.filled, ManagedState(state, v), v.protected, v.ids,
                                         if s.position.Some? then s.position.value.exitFilled else 0))
       else s'.position == s.position
  }

  lemma AppliedKeeps(p: PlanId, s: Slice, s': Slice, truth: Truth, row: Row, v: Verdict)
    requires WellFormed(truth) && PlanInv(p, s, truth)
    requires Reports(truth, Entry(p), row) && Applied(s, s', row, v)
    ensures PlanInv(p, s', truth) && Forward(s, s')
  {
    var o := s.order.value;
    assert row.filled == FilledOf(truth, Entry(p)) && o.filled <= row.filled <= o.requested;
    assert !PositionClosed(s);
    forall n: nat | Accounted(s, truth, p, n) ensures Accounted(s', truth, p, n) {}
    assert ExitInv(p, s', truth);
  }

  /** What a row of a pending order does to the reserved notional: the lots it newly shows as filled are freed,
      and all of the rest as well when the order is no longer pending. */
  lemma AppliedFrees(t: Tables, t': Tables, p: PlanId, row: Row, v: Verdict)
    requires p in t.orders && IsPending(t.orders[p].state)
    requires forall q :: q != p ==> SliceOf(t', q) == SliceOf(t, q)
    requires Applied(SliceOf(t, p), SliceOf(t', p), row, v)
    requires t.orders[p].filled <= row.filled <= t.orders[p].requested
    ensures p in t'.orders && ReservedNotional(t'.orders) == ReservedNotional(t.orders) -
      ((if IsPending(t'.orders[p].state) then row.filled else t.orders[p].requested) - t.orders[p].filled) as real *
      t.orders[p].lotNotional
  {
    hide ReservedNotional, ReservedBy, Applied, SliceOf, IsPending;
    AppliedOrder(t, t', p, row, v);
    if IsPending(t'.orders[p].state) {
      FillFrees(t.orders, p, t'.orders[p], row.filled - t.orders[p].filled);
    } else {
      EndFrees(t.orders, p, t'.orders[p]);
    }
  }

  /** The order of plan `p` is the only one that changes, and it shows the row's quantity. */
  lemma AppliedOrder(t: Tables, t': Tables, p: PlanId, row: Row, v: Verdict)
    requires p in t.orders && forall q :: q != p ==> SliceOf(t', q) == SliceOf(t, q)
    requires Applied(SliceOf(t, p), SliceOf(t', p), row, v)
    ensures p in t'.orders && t'.orders == t.orders[p := t'.orders[p]]
    ensures t'.orders[p].filled == row.filled
    ensures t'.orders[p].requested == t.orders[p].requested && t'.orders[p].lotNotional == t.orders[p].lotNotional
  {
    hide Allowed, MapState;
    forall q | q != p ensures (q in t'.orders <==> q in t.orders) && (q in t.orders ==> t'.orders[q] == t.orders[q]) {
      assert SliceOf(t', q) == SliceOf(t, q);
    }
  }

  // ----- an order changes state without a row -----

  /** A submission moves an order that is APPROVED or, while it waits for the reply, SUBMITTED; a cancel
      request may come in any state the table allows it in. */
  predicate MoveStarts(from: OrderState, to: OrderState) {
    || to.CancelRequested?
    || ((to.Submitted? || to.SubmissionUnknown? || to.Rejected?) && (from.Approved? || from.Submitted?))
  }

  ghost predicate Moved(s: Slice, s': Slice, state: OrderState) {
    && s.order.Some? && Allowed(s.order.value.state, state) && MoveStarts(s.order.value.state, state)
    && s'.order.Some?
    && s'.order.value == s.order.value.(state := state, orderId := s'.order.value.orderId)
    && s'.plan.Some? && !s'.plan.value.Planned?
    && s' == s.(order := s'.order, plan := s'.plan)
  }

  lemma MovedKeeps(p: PlanId, s: Slice, s': Slice, truth: Truth, state: OrderState)
    requires PlanInv(p, s, truth) && Moved(s, s', state)
    ensures PlanInv(p, s', truth) && Forward(s, s')
  {
    forall n: nat | Accounted(s, truth, p, n) ensures Accounted(s', truth, p, n) {}
  }

  /** The approval transaction: the only step that takes a slot. */
  ghost predicate Created(s: Slice, s': Slice, requested: nat, lotNotional: Notional) {
    && s.plan == Some(Planned) && s.order.None?
    && s' == s.(plan := Some(Approved), order := Some(OrderRow(requested, 0, Approved, None, lotNotional)))
  }

  lemma CreatedKeeps(p: PlanId, s: Slice, s': Slice, truth: Truth, requested: nat, lotNotional: Notional)
    requires PlanInv(p, s, truth) && Created(s, s', requested, lotNotional)
    ensures PlanInv(p, s', truth) && Keeps(s, s')
  {
    forall n: nat | Accounted(s, truth, p, n) ensures Accounted(s', truth, p, n) {}
  }

  /** A plan is inserted, or moves, and no order stands behind it. */
  ghost predicate PlanOnly(s: Slice, s': Slice) {
    s' == s.(plan := s'.plan) && (s'.plan == s.plan || s.order.None?)
  }

  /** Saving, rejecting or expiring a plan touches no order. */
  lemma PlanOnlyKeeps(p: PlanId, s: Slice, s': Slice, truth: Truth)
    requires PlanInv(p, s, truth) && PlanOnly(s, s')
    ensures PlanInv(p, s', truth) && Forward(s, s')
  {
    forall n: nat | Accounted(s, truth, p, n) ensures Accounted(s', truth, p, n) {}
  }

  // ----- flatten attempts -----

  lemma {:induction false} RecordedWithinTotal(m: map<FillKey, FillRow>, truth: Truth, p: PlanId, n: nat)
    requires forall k :: 1 <= k <= n ==> FilledOf(truth, Exit(p, k)) == Recorded(m, FlattenFill(k))
    ensures Sold(truth, p, n) <= Total(m)
    decreases n
  {
    if n > 0 {
      if FlattenFill(n) in m {
        TotalSplit(m, FlattenFill(n));
        RecordedWithinTotal(m - {FlattenFill(n)}, truth, p, n - 1);
      } else {
        RecordedWithinTotal(m, truth, p, n - 1);
      }
    }
  }

  /** The attempt ended without filling, confirmed and fully reconciled: another one may follow it. */
  predicate Reopens(a: AttemptRow) {
    && a.terminalConfirmed && a.reconciliationComplete
    && (a.state == Remotely(Cancelled) || a.state == Remotely(Rejected) || a.state.Failed?)
  }

  lemma ReopensMeans(a: AttemptRow)
    ensures Reopens(a) <==>
      && a.terminalConfirmed && a.reconciliationComplete
      && a.state in {Remotely(Cancelled), Remotely(Rejected), Failed}
  {
  }

  /** A new flatten attempt is due: the ledger does not cover the position, and another attempt may
      follow the latest one, if any. */
  ghost predicate NeedsExit(s: Slice) {
    && s.position.Some? && Total(s.fills) < s.position.value.quantity
    && (s.attempts != [] ==> Reopens(s.attempts[|s.attempts| - 1]))
  }

  function NewAttempt(requested: nat): AttemptRow {
    AttemptRow(requested, 0, Prepared, None, false, false, map[])
  }

  /** A new attempt is opened when one is due, and only the remainder is requested. */
  ghost predicate Opened(s: Slice, s': Slice) {
    && NeedsExit(s) && IsManaged(s.position.value.state)
    && s' == s.(attempts := s.attempts + [NewAttempt(s.position.value.quantity - Total(s.fills))])
  }

  lemma OpenedKeeps(p: PlanId, s: Slice, s': Slice, truth: Truth)
    requires PlanInv(p, s, truth) && Opened(s, s')
    ensures PlanInv(p, s', truth) && Forward(s, s')
  {
    forall n: nat | Accounted(s, truth, p, n) ensures Accounted(s', truth, p, n) {}
    forall n | 1 <= n <= |s.attempts|
      ensures Accounted(s, truth, p, n) && FilledOf(truth, Exit(p, n)) == Recorded(s.fills, FlattenFill(n))
    {
      assert s.attempts[n - 1].requested >= 0;
    }
    RecordedWithinTotal(s.fills, truth, p, |s.attempts|);
  }

  /** Attempt `n` is rewritten; nothing else about the plan changes. */
  ghost predicate Rewritten(s: Slice, s': Slice, n: nat) {
    && 1 <= n <= |s.attempts| == |s'.attempts|
    && s'.attempts[n - 1].requested == s.attempts[n - 1].requested
    && s' == s.(attempts := s.attempts[n - 1 := s'.attempts[n - 1]])
  }

  /** A rewrite of attempt `n` that claims no end it did not claim before; after CLOSED, any. */
  predicate ClaimsNothing(s: Slice, a': AttemptRow, n: nat)
    requires 1 <= n <= |s.attempts|
  {
    var a := s.attempts[n - 1];
    || PositionClosed(s)
    || (&& !a'.state.CleanupIncomplete?
        && (a'.terminalConfirmed && a'.reconciliationComplete ==> a.terminalConfirmed && a.reconciliationComplete)
        && (Reopens(a') ==> Reopens(a)))
  }

  /** The exchange refused attempt `n` with a code: it is done and sold nothing. */
  predicate IsRefused(truth: Truth, r: OrderRef, requested: nat) {
    r in truth && truth[r] == Remote(requested, 0, Done)
  }

  /** What a refusal makes of an attempt: a code rejects it, a local refusal fails it. */
  predicate IsRefusal(a: AttemptRow, a': AttemptRow) {
    || a' == a.(state := Remotely(Rejected), terminalConfirmed := true, reconciliationComplete := true)
    || a' == a.(state := Failed)
  }

  /** A rewrite of attempt `n` that claims no more than the exchange confirmed. */
  predicate RewriteAllowed(s: Slice, a': AttemptRow, truth: Truth, p: PlanId, n: nat)
    requires 1 <= n <= |s.attempts|
  {
    || ClaimsNothing(s, a', n)
    || (!a'.state.CleanupIncomplete? && IsRefused(truth, Exit(p, n), s.attempts[n - 1].requested))
  }

  /** A rewrite of the state, or of both flags after a refusal, or any rewrite once CLOSED. */
  lemma RewrittenKeeps(p: PlanId, s: Slice, s': Slice, truth: Truth, n: nat)
    requires WellFormed(truth) && PlanInv(p, s, truth) && Rewritten(s, s', n)
    requires RewriteAllowed(s, s'.attempts[n - 1], truth, p, n)
    ensures PlanInv(p, s', truth) && Forward(s, s')
  {
    forall k: nat | Accounted(s, truth, p, k) ensures Accounted(s', truth, p, k) {}
  }

  /** The flags `reconcile_flatten_intent` writes with a row. */
  function Observe(a: AttemptRow, row: Row): AttemptRow {
    var remote := MapState(row, a.requested);
    var state :=
      if a.state == Remotely(CancelRequested) && (remote.Submitted? || remote.Open? || remote.PartiallyFilled?)
      then CancelRequested else remote;
    a.(filled := row.filled, state := Remotely(state),
       orderId := if row.orderId.Some? then row.orderId else a.orderId,
       terminalConfirmed := IsTerminal(state),
       reconciliationComplete := IsTerminal(state) && (row.filled == 0 || row.average.Some?))
  }

  /** What an attempt shows after a row. Its request and its cleanup stay; it shows the row's quantity, and the id if
      the row has one. It is confirmed at its end exactly when the row says so, and fully reconciled exactly when,
      besides, what it sold has a price. A cancel that was asked for is not forgotten over a row that is still open. */
  lemma ObserveMeans(a: AttemptRow, row: Row)
    ensures var b := Observe(a, row);
      var over := row.raw == RawCanceled || row.raw == RawRejected || row.raw == RawFilled ||
                  (a.requested > 0 && row.filled >= a.requested);
      && b.requested == a.requested && b.cleanup == a.cleanup && b.filled == row.filled
      && b.orderId == (match row.orderId case Some(id) => Some(id) case None => a.orderId)
      && (b.terminalConfirmed <==> over)
      && (b.reconciliationComplete <==> over && (row.filled == 0 || row.average != None))
      && (over || a.state != Remotely(CancelRequested) ==> b.state == Remotely(MapState(row, a.requested)))
      && (!over && a.state == Remotely(CancelRequested) ==> b.state == Remotely(CancelRequested))
  {
  }

  /** A row of attempt `n` is taken: the attempt shows it, and a priced fill is in the ledger. */
  ghost predicate Observed(s: Slice, s': Slice, n: nat, row: Row) {
    && 1 <= n <= |s.attempts|
    && s'.attempts == s.attempts[n - 1 := Observe(s.attempts[n - 1], row)]
    && (if row.filled > 0 && row.average.Some? then
          && FlattenFill(n) in s'.fills
          && s'.fills[FlattenFill(n)].quantity == row.filled
          && s'.fills == s.fills[FlattenFill(n) := s'.fills[FlattenFill(n)]]
        else s'.fills == s.fills)
    && s'.position == s.position && s'.order == s.order && s'.plan == s.plan
  }

  lemma ObservedKeeps(p: PlanId, s: Slice, s': Slice, truth: Truth, n: nat, row: Row)
    requires WellFormed(truth) && PlanInv(p, s, truth)
    requires Reports(truth, Exit(p, n), row) && Observed(s, s', n, row)
    ensures PlanInv(p, s', truth) && Forward(s, s')
    ensures Total(s.fills) <= Total(s'.fills)
  {
    if FlattenFill(n) in s'.fills {
      TotalUpsert(s.fills, FlattenFill(n), s'.fills[FlattenFill(n)]);
      if s'.fills == s.fills { assert s.fills[FlattenFill(n) := s'.fills[FlattenFill(n)]] == s.fills; }
    }
    forall k: nat | Accounted(s, truth, p, k) ensures Accounted(s', truth, p, k) {}
    var a := s.attempts[n - 1];
    if Observe(a, row).reconciliationComplete {
      assert MapState(row, a.requested).Filled? ==> row.raw.RawFilled? || row.filled >= a.requested;
      assert IsSettled(truth, Exit(p, n));
      assert Accounted(s', truth, p, n);
    }
  }

  // ----- the position row alone -----

  /** `mark_managed_partial_exit`. */
  ghost predicate PartiallyExited(s: Slice, s': Slice) {
    && s.position.Some? && IsManaged(s.position.value.state)
    && s'.position.Some?
    && s'.position.value == s.position.value.(state := ExitPartiallyFilled, exitFilled := s'.position.value.exitFilled)
    && s' == s.(position := s'.position)
  }

  lemma PartiallyExitedKeeps(p: PlanId, s: Slice, s': Slice, truth: Truth)
    requires PlanInv(p, s, truth) && PartiallyExited(s, s')
    ensures PlanInv(p, s', truth) && Forward(s, s')
  {
    forall n: nat | Accounted(s, truth, p, n) ensures Accounted(s', truth, p, n) {}
  }

  /** `close_trade`: allowed only when the ledger covers the managed quantity. */
  ghost predicate ClosedNow(s: Slice, s': Slice) {
    && s.position.Some? && IsManaged(s.position.value.state)
    && s.order.Some? && IsClosable(s.order.value.state)
    && s.position.value.quantity <= Total(s.fills)
    && s'.position.Some?
    && s'.position.value == s.position.value.(state := Closed, exitFilled := s'.position.value.exitFilled)
    && s' == s.(position := s'.position, order := Some(s.order.value.(state := Closed)))
  }

  lemma ClosedNowKeeps(p: PlanId, s: Slice, s': Slice, truth: Truth)
    requires PlanInv(p, s, truth) && ClosedNow(s, s')
    ensures PlanInv(p, s', truth) && Forward(s, s')
  {
    forall n: nat | Accounted(s, truth, p, n) ensures Accounted(s', truth, p, n) {}
  }

  // ----- fills of protective orders -----

  lemma {:induction false} IgnoreInsertGrows(m: map<FillKey, FillRow>, fills: seq<ProtectiveFill>)
    ensures var m' := IgnoreInsert(m, fills);
            && (forall k :: k in m ==> k in m' && m'[k] == m[k])
            && (forall k :: k in m' && k !in m ==> k.ProtectiveTrade?)
            && Total(m) <= Total(m')
    decreases |fills|
  {
    if fills != [] {
      var f := fills[|fills| - 1];
      var before := IgnoreInsert(m, fills[..|fills| - 1]);
      IgnoreInsertGrows(m, fills[..|fills| - 1]);
      if ProtectiveTrade(f.key) !in before {
        TotalUpsert(before, ProtectiveTrade(f.key), FillRow(f.quantity, f.price, f.timestamp));
      }
    }
  }

  /** Fills are read only for a position with protective order ids. */
  ghost predicate Ledgered(s: Slice, s': Slice, fills: seq<ProtectiveFill>) {
    s.position.Some? && s.position.value.protectiveIds != [] && s' == s.(fills := IgnoreInsert(s.fills, fills))
  }

  lemma LedgeredKeeps(p: PlanId, s: Slice, s': Slice, truth: Truth, fills: seq<ProtectiveFill>)
    requires PlanInv(p, s, truth) && Ledgered(s, s', fills)
    ensures PlanInv(p, s', truth) && Forward(s, s')
  {
    IgnoreInsertGrows(s.fills, fills);
    forall n: nat ensures Recorded(s'.fills, FlattenFill(n)) == Recorded(s.fills, FlattenFill(n)) {}
    forall n: nat | Accounted(s, truth, p, n) ensures Accounted(s', truth, p, n) {}
  }
}
