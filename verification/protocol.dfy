/** What every step of the order and flatten protocol keeps, stated over the trade tables and the
    exchange's ground truth, and the whole-run guarantees that follow from it. */
module Protocol {
  import opened Wrappers
  import opened OrderStates
  import opened Exchanges
  import opened TradeTables

  /** Everything the tables say about one plan. */
  datatype Slice = Slice(
    plan: Option<OrderState>, order: Option<OrderRow>, position: Option<PositionRow>,
    attempts: seq<AttemptRow>, fills: map<FillKey, FillRow>)

  function SliceOf(t: Tables, p: PlanId): Slice {
    Slice(
      if p in t.plans then Some(t.plans[p].status) else None,
      if p in t.orders then Some(t.orders[p]) else None,
      if p in t.positions then Some(t.positions[p]) else None,
      AttemptsOf(t, p), FillsOf(t, p))
  }

  /** What the exchange has sold through the first `n` flatten attempts of plan `p`. */
  ghost function Sold(truth: Truth, p: PlanId, n: nat): nat {
    if n == 0 then 0 else FilledOf(truth, Exit(p, n)) + Sold(truth, p, n - 1)
  }

  predicate IsSettled(truth: Truth, r: OrderRef) {
    r in truth && truth[r].Settled()
  }

  /** Attempt `n` can sell no more and all it sold is in the exit ledger. */
  predicate Accounted(s: Slice, truth: Truth, p: PlanId, n: nat) {
    IsSettled(truth, Exit(p, n)) && Recorded(s.fills, FlattenFill(n)) == truth[Exit(p, n)].filled
  }

  /** The entry order against what the exchange filled for it. */
  ghost predicate EntryInv(p: PlanId, s: Slice, truth: Truth) {
    && (s.order.Some? ==> s.plan.Some? && !s.plan.value.Planned?)
    && (s.order.None? ==> s.position.None? && Entry(p) !in truth)
    && (s.order.Some? ==>
      var o := s.order.value;
      && !o.state.Planned? && !o.state.ExitPartiallyFilled?
      && o.filled <= FilledOf(truth, Entry(p))
      && (Entry(p) in truth ==> truth[Entry(p)].requested == o.requested)
      && (o.state.Approved? ==> Entry(p) !in truth)
      && (o.state.Cancelled? ==> IsSettled(truth, Entry(p)) && o.filled == truth[Entry(p)].filled)
      && (o.state.Submitted? || o.state.SubmissionUnknown? || o.state.Open? ==> o.filled == 0)
      && (o.filled > 0 && !o.state.Rejected? ==> s.position.Some?)
      && (o.state.Closed? ==> s.position.Some?))
  }

  /** The managed position against its order and its exit ledger. */
  ghost predicate PositionInv(p: PlanId, s: Slice, truth: Truth) {
    && (s.position.None? ==> s.attempts == [] && s.fills == map[])
    && (s.position.Some? ==>
      var z := s.position.value;
      && s.order.Some?
      && 0 < z.quantity <= FilledOf(truth, Entry(p))
      && (IsManaged(z.state) || z.state.Closed?)
      && (z.state.Closed? <==> s.order.value.state.Closed?)
      && (z.state.Closed? ==> z.quantity <= Total(s.fills))
      && (!s.order.value.state.Rejected? ==> z.quantity == s.order.value.filled))
  }

  /** The flatten attempts against what the exchange sold through them. */
  ghost predicate ExitInv(p: PlanId, s: Slice, truth: Truth) {
    && (forall n: nat :: Exit(p, n) in truth ==>
          1 <= n <= |s.attempts| && truth[Exit(p, n)].requested == s.attempts[n - 1].requested)
    && (forall n: nat :: FlattenFill(n) in s.fills ==>
          1 <= n <= |s.attempts| && s.fills[FlattenFill(n)].quantity <= FilledOf(truth, Exit(p, n)))
    && (forall n :: 1 <= n < |s.attempts| ==> Accounted(s, truth, p, n))
    && (|s.attempts| > 0 && s.position.Some? ==>
          Sold(truth, p, |s.attempts| - 1) + s.attempts[|s.attempts| - 1].requested <= s.position.value.quantity)
    && (s.position.Some? && !s.position.value.state.Closed? ==>
          forall i :: 0 <= i < |s.attempts| ==>
            && !s.attempts[i].state.CleanupIncomplete?
            && (s.attempts[i].terminalConfirmed && s.attempts[i].reconciliationComplete ==>
                  Accounted(s, truth, p, i + 1)))
  }

  ghost predicate PlanInv(p: PlanId, s: Slice, truth: Truth) {
    EntryInv(p, s, truth) && PositionInv(p, s, truth) && ExitInv(p, s, truth)
  }

  /** No order is sent twice, and the exchange knows exactly the orders that were sent. */
  ghost predicate SentInv(truth: Truth, sent: seq<OrderRef>) {
    && (forall i, j :: 0 <= i < j < |sent| ==> sent[i] != sent[j])
    && (forall r :: r in truth <==> r in sent)
  }

  ghost predicate Inv(t: Tables, truth: Truth, sent: seq<OrderRef>) {
    && WellFormed(truth)
    && SentInv(truth, sent)
    && forall p :: PlanInv(p, SliceOf(t, p), truth)
  }

  // ----- whole-run guarantees -----

  lemma {:induction false} SoldWithinRequests(truth: Truth, p: PlanId, s: Slice)
    requires WellFormed(truth) && ExitInv(p, s, truth)
    requires s.position.Some?
    ensures Sold(truth, p, |s.attempts|) <= s.position.value.quantity
  {
    var n := |s.attempts|;
    if n > 0 {
      assert FilledOf(truth, Exit(p, n)) <= s.attempts[n - 1].requested;
    }
  }

  /** No oversell: what the exchange sold through a position's flatten attempts, in any reachable
      state, is at most the managed quantity, which is at most what the entry bought. */
  lemma NoOversell(t: Tables, truth: Truth, sent: seq<OrderRef>, p: PlanId)
    requires Inv(t, truth, sent)
    requires p in t.positions
    ensures Sold(truth, p, |AttemptsOf(t, p)|) <= t.positions[p].quantity <= FilledOf(truth, Entry(p))
  {
    var s := SliceOf(t, p);
    assert PlanInv(p, s, truth);
    SoldWithinRequests(truth, p, s);
  }

  /** What `_finish_flatten` looks at before it reports FLAT. */
  ghost predicate LooksFlat(t: Tables) {
    && (forall p :: p in t.positions ==> !IsManaged(t.positions[p].state))
    && (forall p :: p in t.orders ==> !IsActive(t.orders[p].state))
    && (forall p, n :: p in t.attempts && 0 <= n < |t.attempts[p]| ==> !IsUnresolved(t.attempts[p][n].state))
  }

  lemma {:induction false} NothingReserved(orders: map<PlanId, OrderRow>)
    requires forall p :: p in orders ==> !IsActive(orders[p].state)
    ensures ReservedNotional(orders) == 0.0
    decreases |orders|
  {
    if orders != map[] {
      var p :| p in orders;
      ReservedSplit(orders, p);
      NothingReserved(orders - {p});
    }
  }

  /** What tables that look flat promise: no slot in use, no notional reserved, and every position
      the agent ever had is CLOSED together with its order, with exit fills in the ledger that cover
      it and an exchange that sold no more than it through flatten attempts. */
  ghost predicate TablesFlat(t: Tables, truth: Truth) {
    && SlotPlans(t) == {}
    && ReservedNotional(t.orders) == 0.0
    && (forall p :: p in t.positions ==>
          && t.positions[p].state.Closed?
          && p in t.orders && t.orders[p].state.Closed?
          && t.positions[p].quantity <= Total(FillsOf(t, p))
          && Sold(truth, p, |AttemptsOf(t, p)|) <= t.positions[p].quantity)
    && (forall p :: p in t.orders && t.orders[p].filled > 0 && !t.orders[p].state.Rejected? ==> p in t.positions)
  }

  /** The tables alone: what FLAT says when nothing is managed, active or unresolved. Whether it is
      also true of the exchange is another matter, see `FlatAtExchangeIff`. */
  lemma FlatMeansFlat(t: Tables, truth: Truth, sent: seq<OrderRef>)
    requires Inv(t, truth, sent) && LooksFlat(t)
    ensures TablesFlat(t, truth)
  {
    NothingReserved(t.orders);
    forall p | p in t.positions
      ensures && t.positions[p].state.Closed?
              && p in t.orders && t.orders[p].state.Closed?
              && t.positions[p].quantity <= Total(FillsOf(t, p))
              && Sold(truth, p, |AttemptsOf(t, p)|) <= t.positions[p].quantity
    {
      assert PlanInv(p, SliceOf(t, p), truth);
      NoOversell(t, truth, sent, p);
    }
    forall p | p in t.orders && t.orders[p].filled > 0 && !t.orders[p].state.Rejected?
      ensures p in t.positions
    {
      assert PlanInv(p, SliceOf(t, p), truth);
    }
  }

  /** No order at the exchange can fill any more. */
  ghost predicate AtRest(truth: Truth) {
    forall r :: r in truth ==> truth[r].Settled()
  }

  /** What was bought for plan `p`, if anything, is the whole quantity of a CLOSED position. */
  ghost predicate BoughtIsClosed(t: Tables, truth: Truth, p: PlanId) {
    FilledOf(truth, Entry(p)) > 0 ==>
      && p in t.positions && t.positions[p].state.Closed?
      && t.positions[p].quantity == FilledOf(truth, Entry(p)) <= Total(FillsOf(t, p))
  }

  /** FLAT is true of the exchange: nothing can fill any more, and all that was bought is closed. */
  ghost predicate TrulyFlat(t: Tables, truth: Truth) {
    LooksFlat(t) && AtRest(truth) && forall p :: BoughtIsClosed(t, truth, p)
  }

  /** Every order row shows what the exchange filled, and what was filled was not rejected. */
  ghost predicate UpToDate(t: Tables, truth: Truth) {
    forall p :: p in t.orders ==>
      && t.orders[p].filled == FilledOf(truth, Entry(p))
      && (t.orders[p].state.Rejected? ==> t.orders[p].filled == 0)
  }

  /** Tables that look flat are true exactly when the exchange is at rest and the order rows are up to
      date with it. The code checks neither. */
  lemma FlatAtExchangeIff(t: Tables, truth: Truth, sent: seq<OrderRef>)
    requires Inv(t, truth, sent) && LooksFlat(t)
    ensures TrulyFlat(t, truth) <==> AtRest(truth) && UpToDate(t, truth)
  {
    FlatMeansFlat(t, truth, sent);
    forall p ensures BoughtIsClosed(t, truth, p) <==>
      (p in t.orders ==> t.orders[p].filled == FilledOf(truth, Entry(p))
                         && (t.orders[p].state.Rejected? ==> t.orders[p].filled == 0))
    {
      assert PlanInv(p, SliceOf(t, p), truth);
    }
  }

  // ----- composition -----

  /** A step that touches one plan keeps the invariant if it keeps that plan's part. */
  lemma OnePlan(t: Tables, t': Tables, truth: Truth, sent: seq<OrderRef>, p: PlanId)
    requires Inv(t, truth, sent)
    requires forall q :: q != p ==> SliceOf(t', q) == SliceOf(t, q)
    requires PlanInv(p, SliceOf(t', p), truth)
    ensures Inv(t', truth, sent)
  {
    forall q ensures PlanInv(q, SliceOf(t', q), truth) {
      if q != p {
        assert PlanInv(q, SliceOf(t, q), truth);
      }
    }
  }

  // ----- the exchange moves -----

  lemma {:induction false} SoldSame(truth: Truth, truth': Truth, p: PlanId, n: nat)
    requires forall k :: 1 <= k <= n ==> FilledOf(truth, Exit(p, k)) == FilledOf(truth', Exit(p, k))
    ensures Sold(truth, p, n) == Sold(truth', p, n)
  {
    if n > 0 {
      SoldSame(truth, truth', p, n - 1);
    }
  }

  lemma EvolveKeepsExit(p: PlanId, s: Slice, truth: Truth, truth': Truth)
    requires Evolves(truth, truth')
    requires ExitInv(p, s, truth)
    ensures ExitInv(p, s, truth')
  {
    forall n: nat | Accounted(s, truth, p, n) ensures Accounted(s, truth', p, n) {
      assert RemoteStep(truth[Exit(p, n)], truth'[Exit(p, n)]);
    }
    forall n: nat ensures FilledOf(truth, Exit(p, n)) <= FilledOf(truth', Exit(p, n)) {
      if Exit(p, n) in truth {
        assert RemoteStep(truth[Exit(p, n)], truth'[Exit(p, n)]);
      }
    }
    if |s.attempts| > 0 {
      forall k | 1 <= k <= |s.attempts| - 1
        ensures FilledOf(truth, Exit(p, k)) == FilledOf(truth', Exit(p, k))
      {
        assert Accounted(s, truth, p, k) && Accounted(s, truth', p, k);
      }
      SoldSame(truth, truth', p, |s.attempts| - 1);
    }
  }

  /** Whatever the exchange does on its own keeps the invariant. */
  lemma EvolveKeeps(t: Tables, truth: Truth, truth': Truth, sent: seq<OrderRef>)
    requires Inv(t, truth, sent) && WellFormed(truth') && Evolves(truth, truth')
    ensures Inv(t, truth', sent)
  {
    forall p ensures PlanInv(p, SliceOf(t, p), truth') {
      var s := SliceOf(t, p);
      assert PlanInv(p, s, truth);
      EvolveKeepsExit(p, s, truth, truth');
      if Entry(p) in truth {
        assert RemoteStep(truth[Entry(p)], truth'[Entry(p)]);
      }
    }
  }

  /** What may be sent: an entry just moved to SUBMITTED, or the attempt just prepared, for its own
      quantity. */
  predicate Sendable(t: Tables, r: OrderRef, quantity: nat) {
    match r
    case Entry(p) =>
      p in t.orders && t.orders[p].requested == quantity && t.orders[p].state.Submitted?
    case Exit(p, n) =>
      1 <= n == |AttemptsOf(t, p)| && AttemptsOf(t, p)[n - 1].requested == quantity && AttemptsOf(t, p)[n - 1].state.Prepared?
  }

  /** Sending an order that was never sent: a submitted entry, or a just prepared attempt. */
  lemma SendKeeps(t: Tables, truth: Truth, sent: seq<OrderRef>, r: OrderRef, quantity: nat)
    requires Inv(t, truth, sent)
    requires r !in truth
    requires Sendable(t, r, quantity)
    ensures Inv(t, truth[r := Remote(quantity, 0, InFlight)], sent + [r])
  {
    var truth' := truth[r := Remote(quantity, 0, InFlight)];
    forall p ensures PlanInv(p, SliceOf(t, p), truth') {
      var s := SliceOf(t, p);
      assert PlanInv(p, s, truth);
      forall q | q in truth ensures FilledOf(truth', q) == FilledOf(truth, q) {}
      forall n: nat | Accounted(s, truth, p, n) ensures Accounted(s, truth', p, n) {}
      if |s.attempts| > 0 {
        SoldSame(truth, truth', p, |s.attempts| - 1);
      }
    }
  }
}
