/** The one place where the protocol depends on two commits landing together: the attempt row and
    its exit-ledger row are written by separate transactions. When the agent dies between them, what
    can follow? */
module CommitBoundary {
  import opened Wrappers
  import opened OrderStates
  import opened Exchanges
  import opened TradeTables
  import opened Protocol
  import opened ProtocolSteps
  import opened SliceEffects
  import opened ProtocolRuns
  import opened RunBuilder

  /** The agent died after the attempt row was committed and before the ledger row was. */
  ghost predicate HalfObserved(s: Slice, s': Slice, n: nat, row: Row) {
    1 <= n <= |s.attempts| && s' == s.(attempts := s.attempts[n - 1 := Observe(s.attempts[n - 1], row)])
  }

  /** The same in a world: a row of attempt `n` of an open position was written by half. */
  ghost predicate HalfWrites(w: World, half: World, p: PlanId, n: nat, row: Row) {
    && HasActivePosition(w.tables, p) && Reports(w.truth, Exit(p, n), row)
    && half.truth == w.truth && half.sent == w.sent && half.tables.trades == w.tables.trades
    && SameOthers(w.tables, half.tables, p)
    && HalfObserved(SliceOf(w.tables, p), SliceOf(half.tables, p), n, row)
  }

  /** The flatten attempts of the plan have sold more than its position. */
  ghost predicate Oversold(p: PlanId, s: Slice, truth: Truth) {
    s.position.Some? && Sold(truth, p, |s.attempts|) > s.position.value.quantity
  }

  ghost predicate CanOversell(w: World, p: PlanId, limits: Limits) {
    exists path, events :: Path(path, events, limits) && path[0] == w &&
      Oversold(p, SliceOf(Last(path).tables, p), Last(path).truth)
  }

  /** What the ledger says the first `n` flatten attempts sold. */
  ghost function KnownSold(fills: map<FillKey, FillRow>, n: nat): nat {
    if n == 0 then 0 else Recorded(fills, FlattenFill(n)) + KnownSold(fills, n - 1)
  }

  lemma {:induction false} KnownWithinTotal(fills: map<FillKey, FillRow>, n: nat)
    ensures KnownSold(fills, n) <= Total(fills)
    decreases n
  {
    if n > 0 {
      if FlattenFill(n) in fills {
        TotalSplit(fills, FlattenFill(n));
        KnownWithout(fills, n, n - 1);
        KnownWithinTotal(fills - {FlattenFill(n)}, n - 1);
      } else {
        KnownWithinTotal(fills, n - 1);
      }
    }
  }

  lemma {:induction false} KnownWithout(fills: map<FillKey, FillRow>, m: nat, n: nat)
    requires n < m
    ensures KnownSold(fills - {FlattenFill(m)}, n) == KnownSold(fills, n)
  {
    if n > 0 {
      KnownWithout(fills, m, n - 1);
    }
  }

  lemma {:induction false} SoldIsKnown(s: Slice, truth: Truth, p: PlanId, n: nat)
    requires forall k :: 1 <= k <= n ==> Accounted(s, truth, p, k)
    ensures Sold(truth, p, n) == KnownSold(s.fills, n)
  {
    if n > 0 {
      SoldIsKnown(s, truth, p, n - 1);
      assert Accounted(s, truth, p, n);
    }
  }

  // ----- what is enough for no oversell -----

  /** Every attempt but the latest is over, the ledger's total is at least what those before the latest
      sold, and a new attempt can follow the latest only when that holds of the latest too. */
  ghost predicate ExitSafe(p: PlanId, s: Slice, truth: Truth) {
    var m := |s.attempts|;
    && (forall n: nat :: Exit(p, n) in truth ==>
          1 <= n <= m && truth[Exit(p, n)].requested == s.attempts[n - 1].requested)
    && (forall n: nat :: FlattenFill(n) in s.fills ==>
          1 <= n <= m && s.fills[FlattenFill(n)].quantity <= FilledOf(truth, Exit(p, n)))
    && (forall n :: 1 <= n < m ==> IsSettled(truth, Exit(p, n)))
    && (m > 0 && s.position.Some? ==> Sold(truth, p, m - 1) + s.attempts[m - 1].requested <= s.position.value.quantity)
    && (m > 0 ==> Sold(truth, p, m - 1) + Recorded(s.fills, FlattenFill(m)) <= Total(s.fills))
    && (m > 0 && s.position.Some? && !s.position.value.state.Closed? && Reopens(s.attempts[m - 1]) ==>
          IsSettled(truth, Exit(p, m)) && Sold(truth, p, m) <= Total(s.fills))
  }

  ghost predicate Safe(p: PlanId, s: Slice, truth: Truth) {
    WellFormed(truth) && EntryInv(p, s, truth) && PositionInv(p, s, truth) && ExitSafe(p, s, truth)
  }

  lemma SafeIsNotOversold(p: PlanId, s: Slice, truth: Truth)
    requires Safe(p, s, truth)
    ensures !Oversold(p, s, truth)
  {
    var m := |s.attempts|;
    if m > 0 {
      assert FilledOf(truth, Exit(p, m)) <= s.attempts[m - 1].requested;
    }
  }

  // ----- it is kept -----

  lemma SafeApplied(p: PlanId, s: Slice, s': Slice, truth: Truth, row: Row, v: Verdict)
    requires Safe(p, s, truth) && Reports(truth, Entry(p), row) && Applied(s, s', row, v)
    ensures Safe(p, s', truth)
  {
  }

  lemma SafeMoved(p: PlanId, s: Slice, s': Slice, truth: Truth, state: OrderState)
    requires Safe(p, s, truth) && Moved(s, s', state)
    ensures Safe(p, s', truth)
  {
  }

  lemma SafeOpened(p: PlanId, s: Slice, s': Slice, truth: Truth)
    requires Safe(p, s, truth) && Opened(s, s')
    ensures Safe(p, s', truth)
  {
  }

  lemma SafeRewritten(p: PlanId, s: Slice, s': Slice, truth: Truth, n: nat)
    requires Safe(p, s, truth) && Rewritten(s, s', n) && RewriteAllowed(s, s'.attempts[n - 1], truth, p, n)
    ensures Safe(p, s', truth)
  {
  }

  lemma SafeObserved(p: PlanId, s: Slice, s': Slice, truth: Truth, n: nat, row: Row)
    requires Safe(p, s, truth) && Reports(truth, Exit(p, n), row) && Observed(s, s', n, row)
    ensures Safe(p, s', truth)
  {
    if FlattenFill(n) in s'.fills {
      TotalUpsert(s.fills, FlattenFill(n), s'.fills[FlattenFill(n)]);
      if s'.fills == s.fills { assert s.fills[FlattenFill(n) := s'.fills[FlattenFill(n)]] == s.fills; }
    }
    var a := s.attempts[n - 1];
    if Observe(a, row).reconciliationComplete {
      assert MapState(row, a.requested).Filled? ==> row.raw.RawFilled? || row.filled >= a.requested;
      assert IsSettled(truth, Exit(p, n));
    }
  }

  lemma SafeLedgered(p: PlanId, s: Slice, s': Slice, truth: Truth, fills: seq<ProtectiveFill>)
    requires Safe(p, s, truth) && Ledgered(s, s', fills)
    ensures Safe(p, s', truth)
  {
    IgnoreInsertGrows(s.fills, fills);
    forall n: nat ensures Recorded(s'.fills, FlattenFill(n)) == Recorded(s.fills, FlattenFill(n)) {}
  }

  lemma SafePosition(p: PlanId, s: Slice, s': Slice, truth: Truth)
    requires Safe(p, s, truth) && (PartiallyExited(s, s') || ClosedNow(s, s') || PlanOnly(s, s'))
    ensures Safe(p, s', truth)
  {
  }

  lemma SafeCreated(p: PlanId, s: Slice, s': Slice, truth: Truth, requested: nat, lotNotional: Notional)
    requires Safe(p, s, truth) && Created(s, s', requested, lotNotional)
    ensures Safe(p, s', truth)
  {
  }

  lemma SafeEvolves(p: PlanId, s: Slice, truth: Truth, truth': Truth)
    requires Safe(p, s, truth) && WellFormed(truth') && Evolves(truth, truth')
    ensures Safe(p, s, truth')
  {
    forall r | r in truth ensures RemoteStep(truth[r], truth'[r]) {}
    forall r ensures FilledOf(truth, r) <= FilledOf(truth', r) {}
    var m := |s.attempts|;
    if m > 0 {
      forall k | 1 <= k < m ensures FilledOf(truth, Exit(p, k)) == FilledOf(truth', Exit(p, k)) {
        assert IsSettled(truth, Exit(p, k));
      }
      SoldSame(truth, truth', p, m - 1);
    }
  }

  lemma SafeSends(w: World, r: OrderRef, quantity: nat, w': World, p: PlanId)
    requires Safe(p, SliceOf(w.tables, p), w.truth) && Next(w, Sends(r, quantity), w')
    ensures Safe(p, SliceOf(w'.tables, p), w'.truth)
  {
    hide Safe;
    SafeNewOrder(p, SliceOf(w.tables, p), w.truth, r, quantity);
  }

  lemma SafeNewOrder(p: PlanId, s: Slice, truth: Truth, r: OrderRef, quantity: nat)
    requires Safe(p, s, truth) && r !in truth
    requires r == Entry(p) ==>
      s.order.Some? && s.order.value.requested == quantity && s.order.value.state.Submitted?
    requires forall n :: r == Exit(p, n) ==>
      1 <= n == |s.attempts| && s.attempts[n - 1].requested == quantity && s.attempts[n - 1].state.Prepared?
    ensures Safe(p, s, truth[r := Remote(quantity, 0, InFlight)])
  {
    var truth' := truth[r := Remote(quantity, 0, InFlight)];
    forall q ensures FilledOf(truth', q) == FilledOf(truth, q) {}
    var m := |s.attempts|;
    SoldSame(truth, truth', p, m);
    if m > 0 {
      SoldSame(truth, truth', p, m - 1);
    }
  }

  lemma SafeTable(e: Event, p: PlanId, s: Slice, s': Slice, truth: Truth)
    requires Safe(p, s, truth) && TableEvent(e, p, s, s', truth)
    ensures Safe(p, s', truth)
  {
    hide Safe;
    match e
    case PlanChanges(_) => SafePosition(p, s, s', truth);
    case Approves(_, requested, lotNotional) => SafeCreated(p, s, s', truth, requested, lotNotional);
    case OrderMoves(_, state) => SafeMoved(p, s, s', truth, state);
    case EntryRow(_, row, v) => SafeApplied(p, s, s', truth, row, v);
    case RefusesEntry(_) => SafeMoved(p, s, s', truth, Rejected);
    case OpensAttempt(_) => SafeOpened(p, s, s', truth);
    case RewritesAttempt(_, n) => SafeRewritten(p, s, s', truth, n);
    case RefusesExit(_, n) => SafeRewritten(p, s, s', truth, n);
    case ExitRow(_, n, row) => SafeObserved(p, s, s', truth, n, row);
    case MarksPartial(_) => SafePosition(p, s, s', truth);
    case LedgersFills(_, fills) => SafeLedgered(p, s, s', truth, fills);
    case Closes(_) => SafePosition(p, s, s', truth);
  }

  lemma SafeNext(w: World, e: Event, w': World, p: PlanId)
    requires Safe(p, SliceOf(w.tables, p), w.truth) && Next(w, e, w')
    ensures Safe(p, SliceOf(w'.tables, p), w'.truth)
  {
    hide Safe, TableEvent, TradesFollow, SliceOf;
    match e
    case ExchangeMoves => SafeEvolves(p, SliceOf(w.tables, p), w.truth, w'.truth);
    case Unanswered(_) =>
    case Sends(r, quantity) => SafeSends(w, r, quantity, w', p);
    case _ =>
      if e.plan == p {
        SafeTable(e, p, SliceOf(w.tables, p), SliceOf(w'.tables, p), w.truth);
      }
  }

  lemma {:induction false} SafeForEver(path: seq<World>, events: seq<Event>, limits: Limits, p: PlanId, i: nat)
    requires Path(path, events, limits) && i < |path|
    requires Safe(p, SliceOf(path[0].tables, p), path[0].truth)
    ensures Safe(p, SliceOf(path[i].tables, p), path[i].truth)
  {
    hide Safe, Next, Fits;
    if i > 0 {
      SafeForEver(path, events, limits, p, i - 1);
      SafeNext(path[i - 1], events[i - 1], path[i], p);
    }
  }

  // ----- what a half write leaves -----

  /** The half-written attempt may be followed by another, and the ledger's total is less than what the
      attempts sold: the row, and what the ledger says of the attempts before. Both can be checked
      before the row is written. */
  ghost predicate LosesFill(s: Slice, n: nat, row: Row)
    requires 1 <= n <= |s.attempts|
  {
    n == |s.attempts| && Reopens(Observe(s.attempts[n - 1], row)) && KnownSold(s.fills, n - 1) + row.filled > Total(s.fills)
  }

  lemma SoldByLatest(p: PlanId, s: Slice, truth: Truth, row: Row)
    requires PlanInv(p, s, truth) && s.attempts != [] && Reports(truth, Exit(p, |s.attempts|), row)
    ensures Sold(truth, p, |s.attempts|) == KnownSold(s.fills, |s.attempts| - 1) + row.filled
  {
    SoldIsKnown(s, truth, p, |s.attempts| - 1);
  }

  /** The latest attempt of a half-written plan: what was sold is in the ledger, or no attempt follows. */
  lemma HalfLatest(p: PlanId, s: Slice, half: Slice, truth: Truth, n: nat, row: Row)
    requires WellFormed(truth) && PlanInv(p, s, truth)
    requires Reports(truth, Exit(p, n), row) && HalfObserved(s, half, n, row)
    requires s.position.Some? && !s.position.value.state.Closed? && !LosesFill(s, n, row)
    requires Reopens(half.attempts[|half.attempts| - 1])
    ensures IsSettled(truth, Exit(p, |s.attempts|)) && Sold(truth, p, |s.attempts|) <= Total(s.fills)
  {
    hide EntryInv, PositionInv, KnownSold;
    var m := |s.attempts|;
    if n == m {
      SoldByLatest(p, s, truth, row);
    } else {
      assert half.attempts[m - 1] == s.attempts[m - 1] && Accounted(s, truth, p, m);
      SoldIsKnown(s, truth, p, m);
      KnownWithinTotal(s.fills, m);
    }
  }

  lemma HalfIsSafe(p: PlanId, s: Slice, half: Slice, truth: Truth, n: nat, row: Row)
    requires WellFormed(truth) && PlanInv(p, s, truth)
    requires Reports(truth, Exit(p, n), row) && HalfObserved(s, half, n, row)
    requires s.position.Some? && !s.position.value.state.Closed? && !LosesFill(s, n, row)
    ensures Safe(p, half, truth)
  {
    hide Reopens, Observe, Reports, LosesFill;
    var m := |s.attempts|;
    forall k | 1 <= k < m ensures IsSettled(truth, Exit(p, k)) {
      assert Accounted(s, truth, p, k);
    }
    SoldIsKnown(s, truth, p, m - 1);
    KnownWithinTotal(s.fills, m);
    ObserveKeepsRequest(s.attempts[n - 1], row);
    if Reopens(half.attempts[m - 1]) {
      HalfLatest(p, s, half, truth, n, row);
    }
  }

  lemma ObserveKeepsRequest(a: AttemptRow, row: Row)
    ensures Observe(a, row).requested == a.requested
  {
  }

  lemma StillOpen(w: World, p: PlanId)
    requires HasActivePosition(w.tables, p)
    ensures SliceOf(w.tables, p).position.Some? && IsManaged(SliceOf(w.tables, p).position.value.state)
  {
  }

  /** The next attempt of a plan that needs one, opened in any world. */
  lemma OpensIn(w: World, p: PlanId, s: Slice, quantity: nat) returns (w': World)
    requires s == SliceOf(w.tables, p) && NeedsExit(s) && IsManaged(s.position.value.state)
    requires quantity + Total(s.fills) == s.position.value.quantity
    ensures Next(w, OpensAttempt(p), w') && w'.truth == w.truth && w'.sent == w.sent
    ensures SliceOf(w'.tables, p) == s.(attempts := s.attempts + [NewAttempt(quantity)])
  {
    hide TableEvent, SliceOf, Next;
    var after := s.(attempts := s.attempts + [NewAttempt(quantity)]);
    w' := World(WithSlice(w.tables, p, after, p in w.tables.trades), w.truth, w.sent);
    WithSliceEffect(w.tables, p, after, p in w.tables.trades);
    OpensIsEvent(p, s, after, w.truth);
    TableStep(w.tables, w'.tables, w.truth, w.sent, OpensAttempt(p), p);
  }

  /** After a half write that loses a fill: the next attempt asks for more than is left, and the exchange
      fills it. */
  lemma OversellingPath(w: World, half: World, p: PlanId, n: nat, row: Row, limits: Limits)
    requires Good(w) && HalfWrites(w, half, p, n, row)
    requires LosesFill(SliceOf(w.tables, p), n, row)
    ensures CanOversell(half, p, limits)
  {
    hide Inv, PlanInv, Path, Next, SliceOf, Sold, Oversold, Observe, LosesFill, NeedsExit, Total, SameOthers, Reports;
    var s := SliceOf(half.tables, p);
    PlanPart(w, p);
    StillOpen(w, p);
    StillDue(p, SliceOf(w.tables, p), s, w.truth, n, row);
    var quantity := s.position.value.quantity - Total(s.fills);
    var w1 := OpensIn(half, p, s, quantity);
    FillsTooMuch(w1, half, p, SliceOf(w1.tables, p), n, quantity, limits);
  }

  /** A just opened attempt is sent and filled. */
  lemma FillsTooMuch(w1: World, half: World, p: PlanId, s: Slice, n: nat, quantity: nat, limits: Limits)
    requires WellFormed(w1.truth) && Next(half, OpensAttempt(p), w1) && s == SliceOf(w1.tables, p)
    requires s.position.Some? && |s.attempts| == n + 1 && s.attempts[n] == NewAttempt(quantity)
    requires Exit(p, n + 1) !in w1.truth && Sold(w1.truth, p, n) + quantity > s.position.value.quantity
    ensures CanOversell(half, p, limits)
  {
    hide Path, Next, SliceOf, Sold, Oversold, WellFormed;
    var r := Exit(p, n + 1);
    var w2 := World(w1.tables, w1.truth[r := Remote(quantity, 0, InFlight)], w1.sent + [r]);
    ExitSends(w1, p, s, n + 1, quantity);
    var w3 := w2.(truth := w1.truth[r := Remote(quantity, quantity, Done)]);
    ExitFills(w1, w2, w3, r, quantity);
    SoldTooMuch(p, s, w1.truth, w3.truth, n, quantity);
    ThreeSteps(half, w1, w2, w3, p, r, quantity, limits);
  }

  lemma ThreeSteps(half: World, w1: World, w2: World, w3: World, p: PlanId, r: OrderRef, quantity: nat, limits: Limits)
    requires Next(half, OpensAttempt(p), w1) && Next(w1, Sends(r, quantity), w2) && Next(w2, ExchangeMoves, w3)
    requires Oversold(p, SliceOf(w3.tables, p), w3.truth)
    ensures CanOversell(half, p, limits)
  {
    hide Path, Next, Oversold, SliceOf;
    Stay(half, limits);
    var path, events := Grow([half], [], limits, OpensAttempt(p), w1);
    path, events := Grow(path, events, limits, Sends(r, quantity), w2);
    path, events := Grow(path, events, limits, ExchangeMoves, w3);
  }

  lemma StillDue(p: PlanId, s: Slice, half: Slice, truth: Truth, n: nat, row: Row)
    requires WellFormed(truth) && PlanInv(p, s, truth) && s.position.Some? && IsManaged(s.position.value.state)
    requires Reports(truth, Exit(p, n), row) && HalfObserved(s, half, n, row) && LosesFill(s, n, row)
    ensures NeedsExit(half) && half.position == s.position && |half.attempts| == n
    ensures Total(half.fills) < Sold(truth, p, n) <= half.position.value.quantity
    ensures Exit(p, n + 1) !in truth
  {
    SoldByLatest(p, s, truth, row);
    SoldWithinRequests(truth, p, s);
  }

  lemma OpensIsEvent(p: PlanId, s: Slice, reopened: Slice, truth: Truth)
    requires NeedsExit(s) && IsManaged(s.position.value.state)
    requires reopened == s.(attempts := s.attempts + [NewAttempt(s.position.value.quantity - Total(s.fills))])
    ensures TableEvent(OpensAttempt(p), p, s, reopened, truth)
  {
  }

  lemma ExitSends(w: World, p: PlanId, s: Slice, n: nat, quantity: nat)
    requires SliceOf(w.tables, p) == s && 1 <= n == |s.attempts| && s.attempts[n - 1] == NewAttempt(quantity)
    requires Exit(p, n) !in w.truth
    ensures Next(w, Sends(Exit(p, n), quantity),
                 World(w.tables, w.truth[Exit(p, n) := Remote(quantity, 0, InFlight)], w.sent + [Exit(p, n)]))
  {
  }

  lemma ExitFills(w: World, sent: World, filled: World, r: OrderRef, quantity: nat)
    requires WellFormed(w.truth) && r !in w.truth
    requires sent.truth == w.truth[r := Remote(quantity, 0, InFlight)]
    requires filled == sent.(truth := w.truth[r := Remote(quantity, quantity, Done)])
    ensures Next(sent, ExchangeMoves, filled)
  {
  }

  lemma SoldTooMuch(p: PlanId, s: Slice, truth: Truth, truth': Truth, n: nat, quantity: nat)
    requires s.position.Some? && |s.attempts| == n + 1 && Exit(p, n + 1) !in truth
    requires truth' == truth[Exit(p, n + 1) := Remote(quantity, quantity, Done)]
    requires Sold(truth, p, n) + quantity > s.position.value.quantity
    ensures Oversold(p, s, truth')
  {
    SoldSame(truth, truth', p, n);
  }

  /** The agent died between the two commits of a row of attempt `n` of an open position. The flatten
      attempts can go on to sell more than the position exactly when the half write loses a fill: the
      latest attempt ended CANCELLED or REJECTED, with its price known, and the ledger's total is less
      than what the attempts sold. A half-written FILLED attempt loses nothing, because none follows it. */
  lemma HalfWriteOversellsIff(w: World, half: World, p: PlanId, n: nat, row: Row, limits: Limits)
    requires Good(w) && HalfWrites(w, half, p, n, row)
    ensures 1 <= n <= |SliceOf(w.tables, p).attempts|
    ensures CanOversell(half, p, limits) <==> LosesFill(SliceOf(w.tables, p), n, row)
    ensures LosesFill(SliceOf(w.tables, p), n, row) ==>
      (row.raw.RawCanceled? || row.raw.RawRejected?) && row.filled > 0 && row.average.Some? && NeedsExit(SliceOf(half.tables, p))
  {
    hide Inv, Next, Fits, PlanInv, Safe, Oversold;
    PlanPart(w, p);
    var s := SliceOf(w.tables, p);
    if LosesFill(s, n, row) {
      OversellingPath(w, half, p, n, row, limits);
      StillDue(p, s, SliceOf(half.tables, p), w.truth, n, row);
      KnownWithinTotal(s.fills, n - 1);
    } else {
      StillOpen(w, p);
      HalfIsSafe(p, s, SliceOf(half.tables, p), w.truth, n, row);
      forall path, events | Path(path, events, limits) && path[0] == half
        ensures !Oversold(p, SliceOf(Last(path).tables, p), Last(path).truth)
      {
        SafeForEver(path, events, limits, p, |path| - 1);
        SafeIsNotOversold(p, SliceOf(Last(path).tables, p), Last(path).truth);
      }
    }
  }

  // ----- a run that oversells -----

  function CancelledRow(): Row {
    Row(RawCanceled, 1, Some(1.0), None, 0)
  }

  /** What the tables say after the half write, and when the next attempt asks for both lots again. */
  function HalfWritten(more: seq<AttemptRow>): Slice {
    BoughtTwo([Observe(NewAttempt(2), CancelledRow())] + more, map[])
  }

  /** The next lookup fails, and another attempt is opened. */
  lemma AsksAgain(p: PlanId, truth: Truth, sent: seq<OrderRef>) returns (path: seq<World>, more: seq<Event>)
    ensures Path(path, more, LIMITS) && path[0] == Alone(p, HalfWritten([]), truth, sent, true)
    ensures more == [Unanswered(Exit(p, 1)), OpensAttempt(p)]
    ensures Last(path) == Alone(p, HalfWritten([NewAttempt(2)]), truth, sent, true)
  {
    hide Path, Next, Alone;
    var half := Alone(p, HalfWritten([]), truth, sent, true);
    Stay(half, LIMITS);
    NoAnswer(half, Exit(p, 1));
    path, more := Grow([half], [], LIMITS, Unanswered(Exit(p, 1)), half);
    ReopenStep(p, truth, sent);
    path, more := Grow(path, more, LIMITS, OpensAttempt(p), Alone(p, HalfWritten([NewAttempt(2)]), truth, sent, true));
  }

  /** A position of two lots whose first attempt is cancelled after it sold one. The agent dies between the
      two commits and the next lookup of the attempt fails; the next attempt asks for two lots, and three
      are sold. */
  lemma SplitCommitOversells()
    returns (run: seq<World>, events: seq<Event>, half: World, path: seq<World>, more: seq<Event>, p: PlanId)
    ensures Run(run, events, LIMITS) && HalfWrites(Last(run), half, p, 1, CancelledRow())
    ensures Path(path, more, LIMITS) && path[0] == half && |more| > 0 && more[0] == Unanswered(Exit(p, 1))
    ensures p in Last(path).tables.positions && Last(path).tables.positions[p].quantity == 2
    ensures Sold(Last(path).truth, p, |AttemptsOf(Last(path).tables, p)|) == 3
  {
    hide Path, Next, Alone, HalfWritten;
    p := "p";
    var sent, truth := [Entry(p), Exit(p, 1)], TwoBought(p, Remote(2, 1, Done));
    run, events := TwoBoughtRun(p, Remote(2, 1, Done));
    half := Alone(p, HalfWritten([]), truth, sent, true);
    HalfStep(p, truth, sent);
    path, more := AsksAgain(p, truth, sent);
    var s := HalfWritten([NewAttempt(2)]);
    var inFlight, filled := truth[Exit(p, 2) := Remote(2, 0, InFlight)], truth[Exit(p, 2) := Remote(2, 2, Done)];
    SecondSend(p, s, truth, sent);
    path, more := Grow(path, more, LIMITS, Sends(Exit(p, 2), 2), Alone(p, s, inFlight, sent + [Exit(p, 2)], true));
    MoveStep(p, s, inFlight, filled, sent + [Exit(p, 2)], true);
    path, more := Grow(path, more, LIMITS, ExchangeMoves, Alone(p, s, filled, sent + [Exit(p, 2)], true));
    AloneParts(p, s, filled, sent + [Exit(p, 2)], true);
    ThreeSold(p, s, filled);
  }

  lemma ThreeSold(p: PlanId, s: Slice, truth: Truth)
    requires s == HalfWritten([NewAttempt(2)])
    requires truth == TwoBought(p, Remote(2, 1, Done))[Exit(p, 2) := Remote(2, 2, Done)]
    ensures |s.attempts| == 2 && s.position.Some? && s.position.value.quantity == 2 && Sold(truth, p, 2) == 3
  {
    assert Sold(truth, p, 1) == 1 + Sold(truth, p, 0);
  }

  lemma SecondSend(p: PlanId, s: Slice, truth: Truth, sent: seq<OrderRef>)
    requires s == HalfWritten([NewAttempt(2)]) && Exit(p, 2) !in truth
    ensures Next(Alone(p, s, truth, sent, true), Sends(Exit(p, 2), 2),
                 Alone(p, s, truth[Exit(p, 2) := Remote(2, 0, InFlight)], sent + [Exit(p, 2)], true))
  {
    hide Next;
    var w := Alone(p, s, truth, sent, true);
    AloneParts(p, s, truth, sent, true);
    hide Alone;
    AloneResent(p, s, truth, truth[Exit(p, 2) := Remote(2, 0, InFlight)], sent, sent + [Exit(p, 2)], true);
    SendSecond(w, p);
  }

  lemma SendSecond(w: World, p: PlanId)
    requires AttemptsOf(w.tables, p) == HalfWritten([NewAttempt(2)]).attempts && Exit(p, 2) !in w.truth
    ensures Next(w, Sends(Exit(p, 2), 2),
                 World(w.tables, w.truth[Exit(p, 2) := Remote(2, 0, InFlight)], w.sent + [Exit(p, 2)]))
  {
  }

  lemma NoAnswer(w: World, r: OrderRef)
    ensures Next(w, Unanswered(r), w)
  {
  }

  lemma AloneResent(p: PlanId, s: Slice, truth: Truth, truth': Truth, sent: seq<OrderRef>, sent': seq<OrderRef>, traded: bool)
    ensures Alone(p, s, truth', sent', traded) == World(Alone(p, s, truth, sent, traded).tables, truth', sent')
  {
  }

  lemma HalfStep(p: PlanId, truth: Truth, sent: seq<OrderRef>)
    requires truth == TwoBought(p, Remote(2, 1, Done))
    ensures HalfWrites(Alone(p, BoughtTwo([NewAttempt(2)], map[]), truth, sent, true),
                       Alone(p, HalfWritten([]), truth, sent, true), p, 1, CancelledRow())
  {
    hide SliceOf, Observe;
    var s, half := BoughtTwo([NewAttempt(2)], map[]), HalfWritten([]);
    AloneSlice(p, s, truth, sent, true);
    AloneSlice(p, half, truth, sent, true);
    AloneParts(p, s, truth, sent, true);
    assert half.attempts == s.attempts[0 := Observe(s.attempts[0], CancelledRow())];
  }

  lemma ReopenStep(p: PlanId, truth: Truth, sent: seq<OrderRef>)
    ensures Next(Alone(p, HalfWritten([]), truth, sent, true), OpensAttempt(p),
                 Alone(p, HalfWritten([NewAttempt(2)]), truth, sent, true))
  {
    hide Next, Alone;
    assert Total(map[]) == 0;
    var s, s' := HalfWritten([]), HalfWritten([NewAttempt(2)]);
    assert s'.attempts == s.attempts + [NewAttempt(2)];
    AloneStep(p, s, s', truth, sent, true, OpensAttempt(p));
  }
}
