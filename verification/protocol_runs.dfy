/** Whole runs of the protocol as sequences of events, in any order and of any length. A restart of
    the agent is not an event: it only ends one operation and begins another between two events. */
module ProtocolRuns {
  import opened Wrappers
  import opened OrderStates
  import opened Exchanges
  import opened TradeTables
  import opened Protocol
  import opened SliceEffects
  import opened ProtocolSteps

  datatype World = World(tables: Tables, truth: Truth, sent: seq<OrderRef>)

  const INITIAL_WORLD := World(EMPTY_TABLES, map[], [])

  /** A refusal is a reply with a non-zero code, which the agent can tell from any other failure; an
      answer that never comes changes nothing. */
  datatype Event =
    | ExchangeMoves
    | Unanswered(order: OrderRef)
    | Sends(order: OrderRef, quantity: nat)
    | PlanChanges(plan: PlanId)
    | Approves(plan: PlanId, requested: nat, lotNotional: Notional)
    | OrderMoves(plan: PlanId, state: OrderState)
    | EntryRow(plan: PlanId, row: Row, verdict: Verdict)
    | RefusesEntry(plan: PlanId)
    | OpensAttempt(plan: PlanId)
    | RewritesAttempt(plan: PlanId, attempt: nat)
    | RefusesExit(plan: PlanId, attempt: nat)
    | ExitRow(plan: PlanId, attempt: nat, row: Row)
    | MarksPartial(plan: PlanId)
    | LedgersFills(plan: PlanId, fills: seq<ProtectiveFill>)
    | Closes(plan: PlanId)

  ghost predicate TableEvent(e: Event, p: PlanId, s: Slice, s': Slice, truth: Truth) {
    match e
    case PlanChanges(_) => PlanOnly(s, s')
    case Approves(_, requested, lotNotional) => Created(s, s', requested, lotNotional)
    case OrderMoves(_, state) => Moved(s, s', state)
    case EntryRow(_, row, v) => Reports(truth, Entry(p), row) && Applied(s, s', row, v)
    case RefusesEntry(_) =>
      Moved(s, s', Rejected) && IsRefused(truth, Entry(p), s.order.value.requested)
    case OpensAttempt(_) => Opened(s, s')
    case RewritesAttempt(_, n) => Rewritten(s, s', n) && ClaimsNothing(s, s'.attempts[n - 1], n)
    case RefusesExit(_, n) =>
      && Rewritten(s, s', n) && IsRefused(truth, Exit(p, n), s.attempts[n - 1].requested)
      && IsRefusal(s.attempts[n - 1], s'.attempts[n - 1])
    case ExitRow(_, n, row) => Reports(truth, Exit(p, n), row) && Observed(s, s', n, row)
    case MarksPartial(_) => PartiallyExited(s, s')
    case LedgersFills(_, fills) => Ledgered(s, s', fills)
    case Closes(_) => ClosedNow(s, s')
    case ExchangeMoves => false
    case Unanswered(_) => false
    case Sends(_, _) => false
  }

  /** The row records a fill with a price, which is when the trade row is written. */
  predicate RecordsTrade(e: Event, s: Slice) {
    && e.EntryRow? && s.order.Some? && e.row.average.Some?
    && HasManagedFill(MapState(e.row, s.order.value.requested), e.row.filled)
  }

  /** Trade rows: a close needs one, a priced managed fill leaves one, and none is ever deleted. */
  ghost predicate TradesFollow(t: Tables, e: Event, p: PlanId, t': Tables) {
    && (e.Closes? ==> p in t.trades)
    && t'.trades.Keys == t.trades.Keys + (if RecordsTrade(e, SliceOf(t, p)) then {p} else {})
  }

  ghost predicate Next(w: World, e: Event, w': World) {
    match e
    case ExchangeMoves =>
      w'.tables == w.tables && w'.sent == w.sent && WellFormed(w'.truth) && Evolves(w.truth, w'.truth)
    case Unanswered(_) => w' == w
    case Sends(r, quantity) =>
      && r !in w.truth
      && Sendable(w.tables, r, quantity)
      && w' == World(w.tables, w.truth[r := Remote(quantity, 0, InFlight)], w.sent + [r])
    case _ =>
      && w'.truth == w.truth && w'.sent == w.sent
      && SameOthers(w.tables, w'.tables, e.plan) && TradesFollow(w.tables, e, e.plan, w'.tables)
      && TableEvent(e, e.plan, SliceOf(w.tables, e.plan), SliceOf(w'.tables, e.plan), w.truth)
  }

  ghost predicate Good(w: World) {
    Inv(w.tables, w.truth, w.sent)
  }

  lemma TableEventKeeps(e: Event, p: PlanId, s: Slice, s': Slice, truth: Truth)
    requires WellFormed(truth) && PlanInv(p, s, truth) && TableEvent(e, p, s, s', truth)
    ensures PlanInv(p, s', truth) && Keeps(s, s')
    ensures !e.Approves? ==> Forward(s, s')
  {
    match e
    case PlanChanges(_) => PlanOnlyKeeps(p, s, s', truth);
    case Approves(_, requested, lotNotional) => CreatedKeeps(p, s, s', truth, requested, lotNotional);
    case OrderMoves(_, state) => MovedKeeps(p, s, s', truth, state);
    case EntryRow(_, row, v) => AppliedKeeps(p, s, s', truth, row, v);
    case RefusesEntry(_) => MovedKeeps(p, s, s', truth, Rejected);
    case OpensAttempt(_) => OpenedKeeps(p, s, s', truth);
    case RewritesAttempt(_, n) => RewrittenKeeps(p, s, s', truth, n);
    case RefusesExit(_, n) => RewrittenKeeps(p, s, s', truth, n);
    case ExitRow(_, n, row) => ObservedKeeps(p, s, s', truth, n, row);
    case MarksPartial(_) => PartiallyExitedKeeps(p, s, s', truth);
    case LedgersFills(_, fills) => LedgeredKeeps(p, s, s', truth, fills);
    case Closes(_) => ClosedNowKeeps(p, s, s', truth);
  }

  lemma TableStepKeeps(w: World, e: Event, w': World)
    requires Good(w) && Next(w, e, w') && !e.ExchangeMoves? && !e.Unanswered? && !e.Sends?
    ensures Good(w') && Endures(w.tables, w'.tables)
    ensures SlotPlans(w'.tables) <= SlotPlans(w.tables) + (if e.Approves? then {e.plan} else {})
    ensures !e.Approves? ==> Advances(w.tables, w'.tables)
    ensures e.Approves? ==> ReservedNotional(w'.tables.orders) == ReservedNotional(w.tables.orders) + NewNotional(e)
  {
    hide Inv, Keeps, PlanInv, TableEvent, SliceOf;
    var p := e.plan;
    NoChange(w.tables);
    PlanPart(w, p);
    TableEventKeeps(e, p, SliceOf(w.tables, p), SliceOf(w'.tables, p), w.truth);
    OnePlan(w.tables, w'.tables, w.truth, w.sent, p);
    forall q ensures Keeps(SliceOf(w.tables, q), SliceOf(w'.tables, q)) {
      if q != p {
        assert SliceOf(w.tables, q) == SliceOf(w'.tables, q);
      }
    }
    if e.Approves? {
      ApprovalFrame(w, e, w');
    } else {
      forall q ensures Forward(SliceOf(w.tables, q), SliceOf(w'.tables, q)) {
        if q != p {
          assert SliceOf(w.tables, q) == SliceOf(w'.tables, q);
        }
      }
    }
    forall q | q in SlotPlans(w'.tables)
      ensures q in SlotPlans(w.tables) + (if e.Approves? then {e.plan} else {})
    {
      SlotOf(w.tables, q);
      SlotOf(w'.tables, q);
      if q != p {
        assert SliceOf(w.tables, q) == SliceOf(w'.tables, q);
      }
    }
  }

  /** The notional an approval reserves. */
  function NewNotional(e: Event): real
    requires e.Approves?
  {
    e.requested as real * e.lotNotional
  }

  /** An approval raises the reserved notional by exactly its own. */
  lemma ApprovalFrame(w: World, e: Event, w': World)
    requires Next(w, e, w') && e.Approves?
    ensures ReservedNotional(w'.tables.orders) == ReservedNotional(w.tables.orders) + NewNotional(e)
  {
    hide ReservedBy, ReservedNotional;
    var t, t', p := w.tables, w'.tables, e.plan;
    forall q | q != p ensures (q in t.orders <==> q in t'.orders) && (q in t.orders ==> t'.orders[q] == t.orders[q]) {
      assert SliceOf(t', q) == SliceOf(t, q);
    }
    ReservedSplit(t'.orders, p);
    assert t'.orders - {p} == t.orders;
    NewOrderReserves(e.requested, e.lotNotional);
  }

  lemma SlotOf(t: Tables, p: PlanId)
    ensures p in SlotPlans(t) <==> UsesSlot(SliceOf(t, p))
  {
  }

  /** Every event keeps the invariant; only an approval takes a slot, its own. */
  lemma NextKeeps(w: World, e: Event, w': World)
    requires Good(w) && Next(w, e, w')
    ensures Good(w') && Endures(w.tables, w'.tables)
    ensures SlotPlans(w'.tables) <= SlotPlans(w.tables) + (if e.Approves? then {e.plan} else {})
    ensures !e.Approves? ==> Advances(w.tables, w'.tables)
    ensures e.Approves? ==> ReservedNotional(w'.tables.orders) == ReservedNotional(w.tables.orders) + NewNotional(e)
  {
    hide Inv, Keeps, TableEvent, SliceOf;
    NoChange(w.tables);
    match e
    case ExchangeMoves =>
      EvolveKeeps(w.tables, w.truth, w'.truth, w.sent);
    case Unanswered(_) =>
    case Sends(r, quantity) =>
      SendKeeps(w.tables, w.truth, w.sent, r, quantity);
    case _ =>
      TableStepKeeps(w, e, w');
  }

  lemma PlanPart(w: World, p: PlanId)
    requires Good(w)
    ensures WellFormed(w.truth) && PlanInv(p, SliceOf(w.tables, p), w.truth)
  {
  }

  lemma NoChange(t: Tables)
    ensures Endures(t, t) && Advances(t, t) && forall s: Slice :: Keeps(s, s) && Forward(s, s)
  {
  }

  /** What the checks before an approval leave room for: open positions and reserved notional. */
  datatype Limits = Limits(maxOpen: nat, maxReserved: Notional)

  /** A path: every world follows from the one before it by its event, and an approval happens only
      while a slot is free and its notional still fits, as the checks before it demand. */
  ghost predicate Path(path: seq<World>, events: seq<Event>, limits: Limits) {
    && |path| == |events| + 1
    && forall i :: 0 <= i < |events| ==>
         && Next(path[i], events[i], path[i + 1])
         && (events[i].Approves? ==> Fits(path[i].tables, events[i], limits))
  }

  /** A run is a path from the empty tables and an exchange that has seen nothing. */
  ghost predicate Run(run: seq<World>, events: seq<Event>, limits: Limits) {
    Path(run, events, limits) && run[0] == INITIAL_WORLD
  }

  function Last(path: seq<World>): World
    requires |path| > 0
  {
    path[|path| - 1]
  }

  ghost predicate Fits(t: Tables, e: Event, limits: Limits)
    requires e.Approves?
  {
    && |SlotPlans(t)| < limits.maxOpen
    && ReservedNotional(t.orders) + NewNotional(e) <= limits.maxReserved
  }

  /** A path of one world. */
  lemma Stay(w: World, limits: Limits)
    ensures Path([w], [], limits) && Last([w]) == w
  {
  }

  /** A path goes on with one more event. */
  lemma Grow(path: seq<World>, events: seq<Event>, limits: Limits, e: Event, w: World)
    returns (path': seq<World>, events': seq<Event>)
    requires Path(path, events, limits) && Next(Last(path), e, w)
    requires e.Approves? ==> Fits(Last(path).tables, e, limits)
    ensures path' == path + [w] && events' == events + [e]
    ensures Path(path', events', limits) && Last(path') == w && path'[0] == path[0]
  {
    hide Next, Fits;
    path', events' := path + [w], events + [e];
  }

  function Wider(limits: Limits, maxOpen: nat, maxReserved: real): Limits {
    Limits(if maxOpen > limits.maxOpen then maxOpen else limits.maxOpen,
           if maxReserved > limits.maxReserved then maxReserved else limits.maxReserved)
  }

  /** A path stays one under wider limits. */
  lemma WiderPath(path: seq<World>, events: seq<Event>, limits: Limits, maxOpen: nat, maxReserved: real)
    requires Path(path, events, limits)
    ensures Path(path, events, Wider(limits, maxOpen, maxReserved))
  {
    hide Next;
  }

  lemma InitiallyGood()
    ensures Good(INITIAL_WORLD) && SlotPlans(EMPTY_TABLES) == {} && ReservedNotional(EMPTY_TABLES.orders) == 0.0
  {
  }

  lemma SlotsAfterApproval(a: set<PlanId>, b: set<PlanId>, p: PlanId)
    requires b <= a + {p}
    ensures |b| <= |a| + 1
  {
    assert |a + {p}| <= |a| + 1;
    SubsetSize(b, a + {p});
  }

  lemma {:induction false} SubsetSize(a: set<PlanId>, b: set<PlanId>)
    requires a <= b
    ensures |a| <= |b|
    decreases |a|
  {
    if a != {} {
      var x :| x in a;
      SubsetSize(a - {x}, b - {x});
    }
  }

  /** Over every run, at every point: the invariant holds, no more slots are used than allowed,
      and no more notional is reserved than allowed. */
  lemma {:induction false} RunKeeps(run: seq<World>, events: seq<Event>, limits: Limits, i: nat)
    requires Run(run, events, limits) && i < |run|
    ensures Good(run[i]) && |SlotPlans(run[i].tables)| <= limits.maxOpen
    ensures ReservedNotional(run[i].tables.orders) <= limits.maxReserved
    decreases i
  {
    hide Inv, Next, Endures;
    if i == 0 {
      InitiallyGood();
    } else {
      RunKeeps(run, events, limits, i - 1);
      NextKeeps(run[i - 1], events[i - 1], run[i]);
      if events[i - 1].Approves? {
        SlotsAfterApproval(SlotPlans(run[i - 1].tables), SlotPlans(run[i].tables), events[i - 1].plan);
      } else {
        assert SlotPlans(run[i].tables) <= SlotPlans(run[i - 1].tables);
        AdvancesReserves(run[i - 1].tables, run[i].tables);
        SubsetSize(SlotPlans(run[i].tables), SlotPlans(run[i - 1].tables));
      }
    }
  }

  lemma {:induction false} RunEndures(run: seq<World>, events: seq<Event>, limits: Limits, i: nat, j: nat)
    requires Run(run, events, limits) && i <= j < |run|
    ensures Endures(run[i].tables, run[j].tables)
    decreases j
  {
    hide Inv, Next, Endures;
    if i == j {
      NoChange(run[i].tables);
    } else {
      RunEndures(run, events, limits, i, j - 1);
      RunKeeps(run, events, limits, j - 1);
      NextKeeps(run[j - 1], events[j - 1], run[j]);
      EnduresTransitive(run[i].tables, run[j - 1].tables, run[j].tables);
    }
  }

  /** The guarantees a user relies on, at every point of every run and for every plan: an order is
      sent at most once, flatten attempts never sell more than the managed quantity, and position
      and order are CLOSED together, only when exit fills cover the quantity, and for ever. */
  lemma EveryRunIsSafe(run: seq<World>, events: seq<Event>, limits: Limits, i: nat, p: PlanId)
    requires Run(run, events, limits) && i < |run|
    ensures var w := run[i];
            && (forall a, b :: 0 <= a < b < |w.sent| ==> w.sent[a] != w.sent[b])
            && (p in w.tables.positions ==>
                  && Sold(w.truth, p, |AttemptsOf(w.tables, p)|) <= w.tables.positions[p].quantity
                  && w.tables.positions[p].quantity <= FilledOf(w.truth, Entry(p))
                  && p in w.tables.orders
                  && (w.tables.positions[p].state.Closed? <==> w.tables.orders[p].state.Closed?)
                  && (w.tables.positions[p].state.Closed? ==>
                        w.tables.positions[p].quantity <= Total(FillsOf(w.tables, p))))
    ensures p in run[i].tables.positions && run[i].tables.positions[p].state.Closed? ==>
              forall j :: i <= j < |run| ==>
                p in run[j].tables.positions && run[j].tables.positions[p] == run[i].tables.positions[p] &&
                p in run[j].tables.orders && run[j].tables.orders[p] == run[i].tables.orders[p]
  {
    var w := run[i];
    RunKeeps(run, events, limits, i);
    PlanPart(w, p);
    assert SliceOf(w.tables, p) == SliceOf(w.tables, p);
    if p in w.tables.positions {
      NoOversell(w.tables, w.truth, w.sent, p);
    }
    if p in w.tables.positions && w.tables.positions[p].state.Closed? {
      forall j | i <= j < |run|
        ensures && p in run[j].tables.positions && run[j].tables.positions[p] == w.tables.positions[p]
                && p in run[j].tables.orders && run[j].tables.orders[p] == w.tables.orders[p]
      {
        RunEndures(run, events, limits, i, j);
        assert Keeps(SliceOf(w.tables, p), SliceOf(run[j].tables, p));
      }
    }
  }
}
