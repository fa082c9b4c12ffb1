/** What the operations on flatten attempts return and promise: the close of a covered position, the cleanup that follows
    it, the stop of other attempts, and the turn of a position; with the lemmas that their proofs use. */
module FlattenRules {
  import opened Wrappers
  import opened OrderStates
  import opened Exchanges
  import opened TradeTables
  import opened Protocol
  import opened ProtocolSteps
  import opened SliceEffects
  import opened ProtocolRuns
  import opened ManagerRules

  datatype FlattenResult =
    | NoAttempt
    | AttemptReported(state: AttemptState)
    | OthersActive                 // FLATTEN_INCOMPLETE: another attempt may still sell
    | ExitExceedsPosition          // RECONCILIATION_FAILED
    | NotCovered                   // FLATTEN_INCOMPLETE: the ledger does not cover the position
    | CloseRefused                 // RECONCILIATION_FAILED: the close transaction was refused
    | ReconciliationRequired
    | CleanedUp(complete: bool)
    | FlattenRaised

  function FlattenState(r: FlattenResult): Option<AttemptState> {
    match r
    case AttemptReported(s) => Some(s)
    case CleanedUp(complete) => Some(if complete then Remotely(Filled) else CleanupIncomplete)
    case _ => None
  }

  predicate IsFinalAttempt(s: AttemptState) {
    s.Remotely? && IsTerminal(s.order)
  }

  /** An attempt that a reconcile asks the exchange about. */
  predicate IsAskable(s: AttemptState) {
    !s.CleanupIncomplete? && s != Remotely(Filled)
  }

  /** The attempt states that `reconcile_flatten_intent` does not try to cancel before a close. */
  predicate IsQuietAttempt(s: AttemptState) {
    IsFinalAttempt(s) || s.Failed? || s.CleanupIncomplete?
  }

  /** The attempt states, by what is done with them: which are over, which the exchange is asked about, and which may
      still sell. */
  lemma AttemptMeans(s: AttemptState)
    ensures IsFinalAttempt(s) <==> s in {Remotely(Filled), Remotely(Cancelled), Remotely(Rejected)}
    ensures !IsAskable(s) <==> s in {Remotely(Filled), CleanupIncomplete}
    ensures IsQuietAttempt(s) <==> s in {Remotely(Filled), Remotely(Cancelled), Remotely(Rejected), Failed, CleanupIncomplete}
  {
  }

  /** What a result says about the state of its attempt. */
  lemma ReportMeans(r: FlattenResult)
    ensures FlattenState(r) == match r
      case AttemptReported(s) => Some(s)
      case CleanedUp(complete) => Some(if complete then Remotely(Filled) else CleanupIncomplete)
      case NoAttempt => None
      case OthersActive => None
      case ExitExceedsPosition => None
      case NotCovered => None
      case CloseRefused => None
      case ReconciliationRequired => None
      case FlattenRaised => None
    ensures EndsPursuit(r) <==>
      r.CleanedUp? ||
      (r.AttemptReported? && r.state in {Remotely(Filled), Remotely(Cancelled), Remotely(Rejected), CleanupIncomplete})
  {
  }

  /** Of plan `p` only attempt `n`, the exit ledger and the partial-exit mark changed. */
  ghost predicate TouchedOnly(s: Slice, s': Slice, n: nat) {
    && |s'.attempts| == |s.attempts|
    && (forall i :: 0 <= i < |s.attempts| && i != n - 1 ==> s'.attempts[i] == s.attempts[i])
    && s'.order == s.order && s'.plan == s.plan
    && (s.position.None? <==> s'.position.None?)
    && (s.position.Some? ==>
          && s'.position.value == s.position.value.(state := s'.position.value.state, exitFilled := s'.position.value.exitFilled)
          && (s.position.value.state.Closed? <==> s'.position.value.state.Closed?))
  }

  /** The exit ledger after a row of attempt `n`: a priced fill is its one row in it. */
  ghost function LedgerWith(m: map<FillKey, FillRow>, n: nat, row: Row): map<FillKey, FillRow> {
    if row.filled > 0 && row.average.Some?
    then m[FlattenFill(n) := FillRow(row.filled, row.average.value, row.time)] else m
  }

  /** A managed position that is sold in part, but not covered, is marked with what is sold. */
  ghost function Marked(z: PositionRow, sold: nat): PositionRow {
    if IsManaged(z.state) && 0 < sold < z.quantity
    then z.(state := ExitPartiallyFilled, exitFilled := sold) else z
  }

  ghost function MarkedIn(positions: map<PlanId, PositionRow>, p: PlanId, sold: nat): map<PlanId, PositionRow> {
    if p in positions then positions[p := Marked(positions[p], sold)] else positions
  }

  /** How the close of a position whose ledger covers it ends: it closes exactly when the transaction takes it,
      and a refusal marks attempt `n` and changes nothing else. */
  ghost predicate CloseEnd(t: Tables, t': Tables, p: PlanId, n: nat, r: FlattenResult)
    requires p in t.positions && 1 <= n <= |AttemptsOf(t, p)|
  {
    && (r.CleanedUp? <==> CanCloseNow(t, p)) && (r.CloseRefused? <==> !CanCloseNow(t, p))
    && (r.CloseRefused? ==> t' == PutAttempt(t, p, n, AttemptsOf(t, p)[n - 1].(state := ReconciliationFailed)))
    && (r.CleanedUp? ==>
          && p in t'.positions && p in t'.orders && p in t'.trades
          && t'.positions[p] == t.positions[p].(state := Closed, exitFilled := Total(FillsOf(t, p)))
          && t'.orders[p] == t.orders[p].(state := Closed) && t'.trades[p] == t.trades[p].(exited := true))
    && FillsOf(t', p) == FillsOf(t, p)
    && |AttemptsOf(t', p)| == |AttemptsOf(t, p)|
    && (forall i :: 0 <= i < |AttemptsOf(t, p)| && i != n - 1 ==> AttemptsOf(t', p)[i] == AttemptsOf(t, p)[i])
  }

  /** The cleanup that follows a close: every protective cancel was sent, exactly those that the exchange took
      are recorded, and attempt `n` is FILLED exactly when nothing is left to cancel. */
  ghost predicate CleanedAfterClose(t: Tables, p: PlanId, n: nat, complete: bool, cancels: seq<(PlanId, string)>,
                                    taken: seq<(PlanId, string)>)
  {
    && p in t.positions && 1 <= n <= |AttemptsOf(t, p)|
    && var z, a := t.positions[p], AttemptsOf(t, p)[n - 1];
    && (forall id :: id in z.protectiveIds ==>
          (p, id) in cancels && id in a.cleanup && (IsCancelled(a.cleanup, id) <==> (p, id) in taken))
    && (complete <==> !(z.protected && z.protectiveIds == []) && forall id :: id in z.protectiveIds ==> (p, id) in taken)
    && a.state == (if complete then Remotely(Filled) else CleanupIncomplete)
    && a.terminalConfirmed && (a.reconciliationComplete <==> complete)
  }

  /** What becomes of a covered position: FLATTEN_INCOMPLETE while another attempt may still sell,
      RECONCILIATION_FAILED when more was sold than it holds, and otherwise the close. `a` is attempt `n` as it
      is when the close begins. */
  ghost predicate CoveredEnd(t: Tables, t': Tables, p: PlanId, n: nat, a: AttemptRow, r: FlattenResult)
    requires p in t.positions && 1 <= n <= |AttemptsOf(t', p)|
  {
    var sold, held, quiet := Total(FillsOf(t', p)), t.positions[p].quantity, OthersQuiet(AttemptsOf(t', p), n);
    && (r.OthersActive? || r.ExitExceedsPosition? || r.CleanedUp? || r.CloseRefused?) && held <= sold
    && (r.OthersActive? <==> !quiet)
    && (r.ExitExceedsPosition? <==> quiet && sold > held)
    && (r.CleanedUp? <==> quiet && sold == held && CanCloseNow(t, p))
    && (r.CloseRefused? <==> quiet && sold == held && !CanCloseNow(t, p))
    && (PositionClosed(SliceOf(t', p)) <==> r.CleanedUp?)
    && (r.OthersActive? ==> AttemptsOf(t', p)[n - 1] == a)
    && (r.ExitExceedsPosition? || r.CloseRefused? ==> AttemptsOf(t', p)[n - 1] == a.(state := ReconciliationFailed))
    && p in t'.positions && t'.positions[p].quantity == held
    && (!r.CleanedUp? ==> HasActivePosition(t', p) && t'.orders == t.orders && t'.trades == t.trades)
  }

  /** What an attempt that is asked about becomes. No answer changes nothing; a row is recorded; and a row that
      makes the ledger cover the position leads to the close, if that is allowed. */
  ghost predicate AskAnswer(t: Tables, t': Tables, p: PlanId, n: nat, allowClose: bool, seen: Option<Row>, r: FlattenResult)
    requires 1 <= n <= |AttemptsOf(t, p)| == |AttemptsOf(t', p)|
  {
    match seen
    case None => r == AttemptReported(AttemptsOf(t, p)[n - 1].state) && t' == t
    case Some(row) =>
      var a, ledger := Observe(AttemptsOf(t, p)[n - 1], row), LedgerWith(FillsOf(t, p), n, row);
      if allowClose && Covers(t, p, ledger) then
        && CoveredEnd(t, t', p, n, a, r)
        && (OthersQuiet(AttemptsOf(t, p), n) ==> FillsOf(t', p) == ledger)
      else
        && RowEffect(t, t', p, n, row)
        && r == if a.state == Remotely(Filled) && row.average.Some? && !Covers(t, p, ledger)
                then ReconciliationRequired else AttemptReported(a.state)
  }

  /** A position that should be closed: exactly covered, no attempt may still sell, and the close would go
      through. */
  ghost predicate ToClose(t: Tables, p: PlanId) {
    && CanCloseNow(t, p) && Total(FillsOf(t, p)) == t.positions[p].quantity
    && forall i :: 0 <= i < |AttemptsOf(t, p)| ==> IsQuietAttempt(AttemptsOf(t, p)[i].state)
  }

  /** After an answer to which a close may follow, no position is left that should be closed. */
  lemma AnswerSettles(t: Tables, t': Tables, p: PlanId, n: nat, row: Row, r: FlattenResult)
    requires 1 <= n <= |AttemptsOf(t, p)| == |AttemptsOf(t', p)|
    requires AskAnswer(t, t', p, n, true, Some(row), r)
    ensures !ToClose(t', p)
  {
    hide Observe, LedgerWith, IsQuietAttempt;
    if !Covers(t, p, LedgerWith(FillsOf(t, p), n, row)) {
      RowTouches(t, t', p, n, row);
    }
  }

  /** The attempt is over, or it is known that it was asked to stop. */
  predicate IsStopping(s: AttemptState) {
    s == Remotely(CancelRequested) || IsFinalAttempt(s)
  }

  /** Where nothing may be closed an answer touches one attempt, and reports the state it stored. */
  lemma AnswerTouches(t: Tables, t': Tables, p: PlanId, n: nat, seen: Option<Row>, r: FlattenResult)
    requires 1 <= n <= |AttemptsOf(t, p)| == |AttemptsOf(t', p)|
    requires AskAnswer(t, t', p, n, false, seen, r)
    ensures TouchedOnly(SliceOf(t, p), SliceOf(t', p), n) && t'.orders == t.orders && t'.trades == t.trades
    ensures FlattenState(r).Some? ==> AttemptsOf(t', p)[n - 1].state == FlattenState(r).value
    ensures r.AttemptReported? || (r.ReconciliationRequired? && AttemptsOf(t', p)[n - 1].state == Remotely(Filled))
    ensures IsStopping(AttemptsOf(t, p)[n - 1].state) && !IsFinalAttempt(AttemptsOf(t, p)[n - 1].state) ==>
      IsStopping(AttemptsOf(t', p)[n - 1].state)
  {
    if seen.Some? {
      RowTouches(t, t', p, n, seen.value);
    }
  }

  /** Where the ledger already covers the position the answer is the state. */
  lemma AnswerReports(t: Tables, t': Tables, p: PlanId, n: nat, seen: Option<Row>, r: FlattenResult)
    requires 1 <= n <= |AttemptsOf(t, p)| == |AttemptsOf(t', p)|
    requires AskAnswer(t, t', p, n, false, seen, r) && Advances(t, t') && Covers(t, p, FillsOf(t, p))
    ensures r.AttemptReported?
  {
    hide Observe, LedgerWith;
    LedgerGrows(t, t', p);
  }

  lemma CoversStays(t: Tables, t': Tables, truth: Truth, sent: seq<OrderRef>, p: PlanId, n: nat)
    requires Inv(t', truth, sent) && Advances(t, t') && TouchedOnly(SliceOf(t, p), SliceOf(t', p), n)
    requires Covers(t, p, FillsOf(t, p))
    ensures Covers(t', p, FillsOf(t', p)) && t'.positions[p].quantity == t.positions[p].quantity
  {
    hide Inv, Advances;
    StillActive(t, t', truth, sent, p, n);
    LedgerGrows(t, t', p);
  }

  /** A row, and what the close made of it: what the answer is when the close may follow. */
  lemma AnswerEnds(t: Tables, t1: Tables, t2: Tables, p: PlanId, n: nat, row: Row, r: FlattenResult)
    requires 1 <= n <= |AttemptsOf(t, p)| == |AttemptsOf(t2, p)|
    requires RowEffect(t, t1, p, n, row) && Covers(t, p, LedgerWith(FillsOf(t, p), n, row))
    requires p in t1.positions && CoveredEnd(t1, t2, p, n, AttemptsOf(t1, p)[n - 1], r)
    requires OthersQuiet(AttemptsOf(t1, p), n) ==> FillsOf(t2, p) == FillsOf(t1, p)
    ensures AskAnswer(t, t2, p, n, true, Some(row), r)
  {
    hide Observe, LedgerWith, IsQuietAttempt, Total;
    assert t1.positions == t.positions;
    assert OthersQuiet(AttemptsOf(t, p), n) ==> OthersQuiet(AttemptsOf(t1, p), n);
  }

  /** What an answer says about a position that was not closed before. */
  lemma AnswerCloses(t: Tables, t': Tables, p: PlanId, n: nat, allowClose: bool, seen: Option<Row>, r: FlattenResult)
    requires 1 <= n <= |AttemptsOf(t, p)| == |AttemptsOf(t', p)|
    requires AskAnswer(t, t', p, n, allowClose, seen, r)
    ensures r.CleanedUp? ==> PositionClosed(SliceOf(t', p)) && !PositionClosed(SliceOf(t, p))
    ensures PositionClosed(SliceOf(t', p)) && !PositionClosed(SliceOf(t, p)) ==>
      && Total(FillsOf(t', p)) == SliceOf(t', p).position.value.quantity
      && OthersQuiet(AttemptsOf(t', p), n)
    ensures r.AttemptReported? && seen.Some? ==> RowTaken(t, t', p, n, seen.value)
    ensures !r.FlattenRaised?
  {
    hide Observe, LedgerWith, IsQuietAttempt;
    if seen.Some? && !(allowClose && Covers(t, p, LedgerWith(FillsOf(t, p), n, seen.value))) {
      RowTouches(t, t', p, n, seen.value);
    }
  }

  /** What asks attempt `m` to stop: the exchange is asked to cancel it when there is an id to ask with, and
      asked about it when the cancel was requested before. */
  ghost predicate StopTried(a: AttemptRow, p: PlanId, m: nat, cancels: seq<OrderRef>, cancels': seq<OrderRef>,
                            lookups: seq<Asked>, lookups': seq<Asked>)
  {
    if a.state == Remotely(CancelRequested) then AskedSince(lookups, lookups', Exit(p, m))
    else a.orderId.Some? ==> exists k :: |cancels| <= k < |cancels'| && cancels'[k] == Exit(p, m)
  }

  /** Every attempt that might still sell was asked to stop, up to the first that did not. */
  ghost predicate StopsTried(a: seq<AttemptRow>, b: seq<AttemptRow>, n: nat, p: PlanId, cancels: seq<OrderRef>,
                             cancels': seq<OrderRef>, lookups: seq<Asked>, lookups': seq<Asked>)
  {
    forall i :: 0 <= i < |a| && i != n - 1 && !IsQuietAttempt(a[i].state) && QuietUpTo(b, i, n) ==>
      StopTried(a[i], p, i + 1, cancels, cancels', lookups, lookups')
  }

  /** Every one of the first `m` attempts but the `n`-th that might still sell was asked to stop. */
  ghost predicate TriedUpTo(a: seq<AttemptRow>, n: nat, m: nat, p: PlanId, cancels: seq<OrderRef>, cancels': seq<OrderRef>,
                            lookups: seq<Asked>, lookups': seq<Asked>)
  {
    && m <= |a|
    && forall i :: 0 <= i < m && i != n - 1 && !IsQuietAttempt(a[i].state) ==>
         StopTried(a[i], p, i + 1, cancels, cancels', lookups, lookups')
  }

  lemma TriedNone(a: seq<AttemptRow>, n: nat, p: PlanId, cancels: seq<OrderRef>, lookups: seq<Asked>)
    ensures TriedUpTo(a, n, 0, p, cancels, cancels, lookups, lookups)
  {
  }

  lemma TriedSkips(a: seq<AttemptRow>, n: nat, m: nat, p: PlanId, cancels: seq<OrderRef>, cancels': seq<OrderRef>,
                   lookups: seq<Asked>, lookups': seq<Asked>)
    requires 1 <= m <= |a| && (m == n || IsQuietAttempt(a[m - 1].state))
    requires TriedUpTo(a, n, m - 1, p, cancels, cancels', lookups, lookups')
    ensures TriedUpTo(a, n, m, p, cancels, cancels', lookups, lookups')
  {
  }

  lemma ClosedIsDone(t: Tables, p: PlanId)
    requires PositionClosed(SliceOf(t, p))
    ensures !ToClose(t, p)
  {
  }

  lemma RowShows(t: Tables, t': Tables, p: PlanId, n: nat, row: Row)
    requires 1 <= n <= |AttemptsOf(t, p)| && RowEffect(t, t', p, n, row)
    ensures |AttemptsOf(t', p)| == |AttemptsOf(t, p)|
    ensures AttemptsOf(t', p)[n - 1] == Observe(AttemptsOf(t, p)[n - 1], row)
    ensures FillsOf(t', p) == LedgerWith(FillsOf(t, p), n, row)
    ensures Covers(t', p, FillsOf(t', p)) <==> Covers(t, p, LedgerWith(FillsOf(t, p), n, row))
  {
    hide Observe, LedgerWith;
    RowTouches(t, t', p, n, row);
  }

  lemma OthersStillActive(t: Tables, t': Tables, p: PlanId, n: nat)
    requires Covers(t, p, FillsOf(t, p)) && Covers(t', p, FillsOf(t', p)) && !OthersQuiet(AttemptsOf(t', p), n)
    requires t'.positions[p].quantity == t.positions[p].quantity && t'.orders == t.orders && t'.trades == t.trades
    requires 1 <= n <= |AttemptsOf(t', p)|
    ensures CoveredEnd(t, t', p, n, AttemptsOf(t', p)[n - 1], OthersActive)
  {
    hide OthersQuiet, Total;
  }

  lemma ExceedsEnds(t: Tables, t2: Tables, p: PlanId, n: nat)
    requires HasActivePosition(t, p) && HasActivePosition(t2, p) && 1 <= n <= |AttemptsOf(t2, p)|
    requires OthersQuiet(AttemptsOf(t2, p), n) && t2.positions[p].quantity < Total(FillsOf(t2, p))
    requires t2.positions[p].quantity == t.positions[p].quantity && t2.orders == t.orders && t2.trades == t.trades
    ensures var a := AttemptsOf(t2, p)[n - 1];
      var t3 := PutAttempt(t2, p, n, a.(state := ReconciliationFailed));
      && AttemptsOf(t3, p) == AttemptsOf(t2, p)[n - 1 := a.(state := ReconciliationFailed)]
      && FillsOf(t3, p) == FillsOf(t2, p)
      && CoveredEnd(t, t3, p, n, a, ExitExceedsPosition)
  {
    hide IsQuietAttempt, Total;
  }

  lemma ClosesEnd(t: Tables, t2: Tables, t3: Tables, p: PlanId, n: nat, r: FlattenResult)
    requires HasActivePosition(t, p) && HasActivePosition(t2, p) && 1 <= n <= |AttemptsOf(t2, p)|
    requires OthersQuiet(AttemptsOf(t2, p), n) && t2.positions[p].quantity == Total(FillsOf(t2, p))
    requires t2.positions[p].quantity == t.positions[p].quantity && t2.orders == t.orders && t2.trades == t.trades
    requires CloseEnd(t2, t3, p, n, r)
    ensures FillsOf(t3, p) == FillsOf(t2, p) && |AttemptsOf(t3, p)| == |AttemptsOf(t2, p)|
    ensures forall i :: 0 <= i < |AttemptsOf(t2, p)| && i != n - 1 ==> AttemptsOf(t3, p)[i] == AttemptsOf(t2, p)[i]
    ensures CoveredEnd(t, t3, p, n, AttemptsOf(t2, p)[n - 1], r)
  {
    hide IsQuietAttempt, Total;
    SameClosable(t, t2, p);
  }

  lemma NotAllQuiet(attempts: seq<AttemptRow>, n: nat, m: nat)
    requires 1 <= m <= |attempts| && m != n && !IsQuietAttempt(attempts[m - 1].state)
    ensures !OthersQuiet(attempts, n)
  {
  }

  /** An attempt that is neither over nor as before was asked to stop, and may still sell. */
  lemma NotStopped(before: AttemptState, after: AttemptState)
    requires !IsQuietAttempt(before) && !IsFinalAttempt(after) && (after == before || IsStopping(after))
    ensures !IsQuietAttempt(after)
  {
  }

  lemma StopsLonger(a: seq<AttemptRow>, n: nat, m: nat, p: PlanId, cancels0: seq<OrderRef>, cancels1: seq<OrderRef>,
                    cancels2: seq<OrderRef>, lookups0: seq<Asked>, lookups1: seq<Asked>, lookups2: seq<Asked>)
    requires 1 <= m <= |a| && cancels0 <= cancels1 && lookups0 <= lookups1 <= lookups2
    requires TriedUpTo(a, n, m - 1, p, cancels0, cancels1, lookups0, lookups1)
    requires cancels2 == cancels1 +
      if a[m - 1].state != Remotely(CancelRequested) && a[m - 1].orderId.Some? then [Exit(p, m)] else []
    requires a[m - 1].state == Remotely(CancelRequested) ==> AskedSince(lookups1, lookups2, Exit(p, m))
    ensures cancels0 <= cancels2
    ensures TriedUpTo(a, n, m, p, cancels0, cancels2, lookups0, lookups2)
  {
    hide IsQuietAttempt, AskedSince;
    forall i | 0 <= i < m && i != n - 1 && !IsQuietAttempt(a[i].state)
      ensures StopTried(a[i], p, i + 1, cancels0, cancels2, lookups0, lookups2)
    {
      if a[i].state == Remotely(CancelRequested) {
        if i < m - 1 {
          AskedEarlier(lookups0, lookups1, lookups2, Exit(p, i + 1));
        } else {
          AskedLater(lookups0, lookups1, lookups2, Exit(p, m));
        }
      } else if a[i].orderId.Some? {
        if i < m - 1 {
          var k :| |cancels0| <= k < |cancels1| && cancels1[k] == Exit(p, i + 1);
          assert cancels2[k] == Exit(p, i + 1);
        } else {
          assert cancels2[|cancels1|] == Exit(p, m);
        }
      }
    }
  }

  lemma StopsUpTo(a: seq<AttemptRow>, b: seq<AttemptRow>, n: nat, m: nat, p: PlanId, cancels: seq<OrderRef>,
                  cancels': seq<OrderRef>, lookups: seq<Asked>, lookups': seq<Asked>)
    requires 1 <= m <= |a| == |b| && m != n && !IsQuietAttempt(b[m - 1].state)
    requires TriedUpTo(a, n, m, p, cancels, cancels', lookups, lookups')
    ensures StopsTried(a, b, n, p, cancels, cancels', lookups, lookups')
  {
    hide IsQuietAttempt, StopTried;
  }

  lemma StopsAll(a: seq<AttemptRow>, b: seq<AttemptRow>, n: nat, p: PlanId, cancels: seq<OrderRef>,
                 cancels': seq<OrderRef>, lookups: seq<Asked>, lookups': seq<Asked>)
    requires TriedUpTo(a, n, |a|, p, cancels, cancels', lookups, lookups')
    ensures StopsTried(a, b, n, p, cancels, cancels', lookups, lookups')
  {
    hide IsQuietAttempt, StopTried;
  }

  lemma StopsTriedStill(a: seq<AttemptRow>, b: seq<AttemptRow>, c: seq<AttemptRow>, n: nat, p: PlanId, cancels: seq<OrderRef>,
                        cancels': seq<OrderRef>, lookups: seq<Asked>, lookups': seq<Asked>)
    requires StopsTried(a, b, n, p, cancels, cancels', lookups, lookups') && |c| == |b|
    requires forall i :: 0 <= i < |b| && i != n - 1 ==> c[i] == b[i]
    ensures StopsTried(a, c, n, p, cancels, cancels', lookups, lookups')
  {
    hide IsQuietAttempt, StopTried;
    forall i: nat | QuietUpTo(c, i, n) ensures QuietUpTo(b, i, n) {}
  }

  lemma RequestAllowed(t: Tables, p: PlanId, m: nat)
    requires 1 <= m <= |AttemptsOf(t, p)|
    ensures ClaimsNothing(SliceOf(t, p), AttemptsOf(t, p)[m - 1].(state := Remotely(CancelRequested)), m)
  {
  }

  /** Rewriting the state of one attempt touches nothing else. */
  lemma RequestTouches(t: Tables, p: PlanId, m: nat, a: AttemptRow)
    requires 1 <= m <= |AttemptsOf(t, p)|
    ensures var t' := PutAttempt(t, p, m, a);
      && TouchedOnly(SliceOf(t, p), SliceOf(t', p), m)
      && AttemptsOf(t', p) == AttemptsOf(t, p)[m - 1 := a] && FillsOf(t', p) == FillsOf(t, p)
      && (Covers(t, p, FillsOf(t, p)) ==> Covers(t', p, FillsOf(t', p)))
  {
  }

  lemma TouchedTransitive(t: Tables, t1: Tables, t2: Tables, p: PlanId, n: nat)
    requires TouchedOnly(SliceOf(t, p), SliceOf(t1, p), n) && TouchedOnly(SliceOf(t1, p), SliceOf(t2, p), n)
    ensures TouchedOnly(SliceOf(t, p), SliceOf(t2, p), n)
  {
    hide SliceOf;
  }

  /** The targeted reconciliation of an attempt that may not close anything, before it ends: only the attempt
      is touched, an asked cancel is not forgotten, and a covered position stays covered. */
  ghost predicate Pursuing(t0: Tables, t: Tables, p: PlanId, n: nat) {
    && 1 <= n <= |AttemptsOf(t0, p)| == |AttemptsOf(t, p)|
    && TouchedOnly(SliceOf(t0, p), SliceOf(t, p), n) && t.orders == t0.orders && t.trades == t0.trades
    && (AttemptsOf(t0, p)[n - 1].state == Remotely(CancelRequested) ==>
          AttemptsOf(t, p)[n - 1].state == Remotely(CancelRequested) || AttemptsOf(t, p)[n - 1].state == Remotely(Filled))
    && (Covers(t0, p, FillsOf(t0, p)) ==> Covers(t, p, FillsOf(t, p)))
  }

  /** Its end. */
  ghost predicate PursuedTo(t0: Tables, t: Tables, p: PlanId, n: nat, r: FlattenResult) {
    && 1 <= n <= |AttemptsOf(t0, p)| == |AttemptsOf(t, p)|
    && TouchedOnly(SliceOf(t0, p), SliceOf(t, p), n) && t.orders == t0.orders && t.trades == t0.trades
    && (AttemptsOf(t0, p)[n - 1].state == Remotely(CancelRequested) ==> IsStopping(AttemptsOf(t, p)[n - 1].state))
    && (FlattenState(r).Some? ==> AttemptsOf(t, p)[n - 1].state == FlattenState(r).value)
    && (Covers(t0, p, FillsOf(t0, p)) ==> r.AttemptReported?)
  }

  /** The result ends a targeted reconciliation. */
  predicate EndsPursuit(r: FlattenResult) {
    FlattenState(r).Some? && (IsFinalAttempt(FlattenState(r).value) || FlattenState(r).value.CleanupIncomplete?)
  }

  lemma PursuitBegins(t: Tables, p: PlanId, n: nat)
    requires 1 <= n <= |AttemptsOf(t, p)|
    ensures Pursuing(t, t, p, n)
  {
  }

  /** One turn of a targeted reconciliation. */
  lemma TargetedTurn(t0: Tables, t1: Tables, t2: Tables, truth: Truth, sent: seq<OrderRef>, p: PlanId, n: nat,
                     seen: Option<Row>, r: FlattenResult)
    requires Inv(t2, truth, sent) && Advances(t1, t2)
    requires 1 <= n <= |AttemptsOf(t1, p)| == |AttemptsOf(t2, p)| && !AttemptsOf(t1, p)[n - 1].state.CleanupIncomplete?
    requires IsAskable(AttemptsOf(t1, p)[n - 1].state) ==> AskAnswer(t1, t2, p, n, false, seen, r)
    requires AttemptsOf(t1, p)[n - 1].state == Remotely(Filled) ==> r == AttemptReported(Remotely(Filled)) && t2 == t1
    requires Pursuing(t0, t1, p, n)
    ensures PursuedTo(t0, t2, p, n, r)
    ensures !EndsPursuit(r) ==> Pursuing(t0, t2, p, n)
  {
    hide Inv, Advances, SliceOf, TouchedOnly, Covers, AskAnswer;
    if IsAskable(AttemptsOf(t1, p)[n - 1].state) {
      AnswerTouches(t1, t2, p, n, seen, r);
      TouchedTransitive(t0, t1, t2, p, n);
      if Covers(t1, p, FillsOf(t1, p)) {
        AnswerReports(t1, t2, p, n, seen, r);
        CoversStays(t1, t2, truth, sent, p, n);
      }
    }
  }

  /** An attempt that ends no pursuit is not in cleanup. */
  lemma TurnStays(t: Tables, t': Tables, p: PlanId, n: nat, allowClose: bool, seen: Option<Row>, r: FlattenResult)
    requires 1 <= n <= |AttemptsOf(t, p)| == |AttemptsOf(t', p)| && !AttemptsOf(t, p)[n - 1].state.CleanupIncomplete?
    requires IsAskable(AttemptsOf(t, p)[n - 1].state) ==> AskAnswer(t, t', p, n, allowClose, seen, r)
    requires AttemptsOf(t, p)[n - 1].state == Remotely(Filled) ==> r == AttemptReported(Remotely(Filled)) && t' == t
    ensures EndsPursuit(r) || (IsAskable(AttemptsOf(t, p)[n - 1].state) && !AttemptsOf(t', p)[n - 1].state.CleanupIncomplete?)
  {
    hide AskAnswer;
    if IsAskable(AttemptsOf(t, p)[n - 1].state) {
      AnswerStays(t, t', p, n, allowClose, seen, r);
    }
  }

  lemma EndsWhenFinal(t0: Tables, t: Tables, p: PlanId, n: nat, r: FlattenResult)
    requires PursuedTo(t0, t, p, n, r)
    ensures EndsPursuit(r) && AttemptsOf(t0, p)[n - 1].state == Remotely(CancelRequested) ==>
      IsFinalAttempt(AttemptsOf(t, p)[n - 1].state)
    ensures TouchedOnly(SliceOf(t0, p), SliceOf(t, p), n) && t.orders == t0.orders && t.trades == t0.trades
    ensures AttemptsOf(t0, p)[n - 1].state == Remotely(CancelRequested) ==> IsStopping(AttemptsOf(t, p)[n - 1].state)
    ensures FlattenState(r).Some? ==> AttemptsOf(t, p)[n - 1].state == FlattenState(r).value
    ensures Covers(t0, p, FillsOf(t0, p)) ==> r.AttemptReported?
  {
  }

  lemma UnseenChangesNothing(t: Tables, t': Tables, p: PlanId, n: nat, allowClose: bool, seen: Option<Row>, r: FlattenResult)
    requires 1 <= n <= |AttemptsOf(t, p)| == |AttemptsOf(t', p)|
    requires AskAnswer(t, t', p, n, allowClose, seen, r)
    ensures seen.None? ==> t' == t
  {
  }

  lemma AnswerStays(t: Tables, t': Tables, p: PlanId, n: nat, allowClose: bool, seen: Option<Row>, r: FlattenResult)
    requires 1 <= n <= |AttemptsOf(t, p)| == |AttemptsOf(t', p)| && !AttemptsOf(t, p)[n - 1].state.CleanupIncomplete?
    requires AskAnswer(t, t', p, n, allowClose, seen, r)
    ensures r.CleanedUp? || !AttemptsOf(t', p)[n - 1].state.CleanupIncomplete?
  {
    hide LedgerWith, Covers, OthersQuiet, Total;
  }

  /** The attempts of plan `p` were reconciled: the tables were `t` and are `t'`. */
  ghost predicate Reconciled(t: Tables, t': Tables, p: PlanId, before: seq<Asked>, after: seq<Asked>) {
    && before <= after && |AttemptsOf(t', p)| == |AttemptsOf(t, p)|
    && AllAsked(AttemptsOf(t', p), |AttemptsOf(t, p)|, p, before, after)
    && (Silent(before, after) && HasActivePosition(t, p) ==> SliceOf(t', p) == SliceOf(t, p))
    && (ToClose(t', p) ==> Silent(before, after))
  }

  lemma ReconciledNow(t: Tables, t': Tables, p: PlanId, before: seq<Asked>, after: seq<Asked>)
    requires before <= after && |AttemptsOf(t', p)| == |AttemptsOf(t, p)|
    requires AllAsked(AttemptsOf(t', p), |AttemptsOf(t, p)|, p, before, after)
    requires Silent(before, after) && !PositionClosed(SliceOf(t, p)) ==> t' == t
    requires ToClose(t', p) ==> Silent(before, after)
    ensures Reconciled(t, t', p, before, after)
  {
    hide AllAsked, Silent, ToClose;
  }

  /** What an attempt asked for and has not sold. */
  ghost function Unfilled(a: AttemptRow): nat {
    if a.requested > a.filled then a.requested - a.filled else 0
  }

  /** The latest attempt may still sell, and with what the ledger has that would be more than the position. */
  ghost predicate OverCommits(s: Slice) {
    && s.position.Some? && s.attempts != []
    && var latest := s.attempts[|s.attempts| - 1];
    && !IsQuietAttempt(latest.state)
    && Total(s.fills) + Unfilled(latest) > s.position.value.quantity
  }

  /** The next step of an open position, from the tables `t` to `t'`: the latest attempt is asked to stop when
      it could oversell; nothing happens while it is not over; a covered position is closed if it can be; and
      otherwise a new attempt asks for exactly the remainder. */
  ghost predicate TurnTaken(t: Tables, t': Tables, p: PlanId, canExit: bool, sent: seq<OrderRef>, cancels: seq<OrderRef>,
                            cancels': seq<OrderRef>, lookups: seq<Asked>, lookups': seq<Asked>)
  {
    var s, s' := SliceOf(t, p), SliceOf(t', p);
    && s.position.Some?
    && if OverCommits(s) then
         && TouchedOnly(s, s', |s.attempts|)
         && StopTried(s.attempts[|s.attempts| - 1], p, |s.attempts|, cancels, cancels', lookups, lookups')
       else if s.attempts != [] && !Reopens(s.attempts[|s.attempts| - 1]) then s' == s
       else if s.position.value.quantity <= Total(s.fills) then PositionClosed(s') <==> CanCloseNow(t, p)
       else
         && |s'.attempts| == |s.attempts| + 1
         && s'.attempts[|s.attempts|].requested == s.position.value.quantity - Total(s.fills)
         && (canExit ==> Exit(p, |s'.attempts|) in sent)
  }

  lemma TurnLonger(t: Tables, t': Tables, p: PlanId, canExit: bool, sent: seq<OrderRef>, cancels0: seq<OrderRef>,
                   cancels1: seq<OrderRef>, cancels2: seq<OrderRef>, lookups: seq<Asked>, lookups': seq<Asked>)
    requires TurnTaken(t, t', p, canExit, sent, cancels1, cancels2, lookups, lookups') && cancels0 <= cancels1
    ensures TurnTaken(t, t', p, canExit, sent, cancels0, cancels2, lookups, lookups')
  {
    hide TouchedOnly, IsQuietAttempt, Total, AskedSince;
  }

  /** A turn of plan `p` with the tables `mid` in between, which the run went through after `from` worlds. */
  ghost predicate TurnedBy(t: Tables, mid: Tables, t': Tables, p: PlanId, canExit: bool, sent: seq<OrderRef>,
                           cancels: seq<OrderRef>, cancels': seq<OrderRef>, lookups: seq<Asked>, first: seq<Asked>,
                           asked: seq<Asked>, lookups': seq<Asked>, from: nat, run: seq<World>)
  {
    && lookups <= first && asked <= lookups'
    && (exists k :: from - 1 <= k < |run| && 0 <= k && run[k].tables == mid)
    && Reconciled(t, mid, p, first, asked)
    && if HasActivePosition(mid, p) then TurnTaken(mid, t', p, canExit, sent, cancels, cancels', asked, lookups')
       else SliceOf(t', p) == SliceOf(mid, p)
  }

  /** A position had its turn: its attempts were reconciled, and the next step was taken. */
  ghost predicate Turned(t: Tables, t': Tables, p: PlanId, canExit: bool, sent: seq<OrderRef>, cancels: seq<OrderRef>,
                         cancels': seq<OrderRef>, lookups: seq<Asked>, lookups': seq<Asked>, from: nat, run: seq<World>)
  {
    exists mid, first, asked ::
      TurnedBy(t, mid, t', p, canExit, sent, cancels, cancels', lookups, first, asked, lookups', from, run)
  }

  lemma TurnNow(t1: Tables, t2: Tables, mid: Tables, t3: Tables, p: PlanId, canExit: bool, sent: seq<OrderRef>,
                cancels0: seq<OrderRef>, cancels2: seq<OrderRef>, cancels3: seq<OrderRef>, lookups0: seq<Asked>,
                lookups2: seq<Asked>, asked: seq<Asked>, lookups3: seq<Asked>, from: nat, run: seq<World>)
    requires SliceOf(t2, p) == SliceOf(t1, p) && cancels0 <= cancels2 && lookups0 <= lookups2 && asked <= lookups3
    requires exists k :: from - 1 <= k < |run| && 0 <= k && run[k].tables == mid
    requires Reconciled(t2, mid, p, lookups2, asked)
    requires if HasActivePosition(mid, p) then TurnTaken(mid, t3, p, canExit, sent, cancels2, cancels3, asked, lookups3)
             else t3 == mid
    ensures Turned(t1, t3, p, canExit, sent, cancels0, cancels3, lookups0, lookups3, from, run)
  {
    hide TurnTaken, AllAsked, Silent, ToClose;
    SameSlice(t1, t2, p);
    if HasActivePosition(mid, p) {
      TurnLonger(mid, t3, p, canExit, sent, cancels0, cancels2, cancels3, asked, lookups3);
    }
    assert TurnedBy(t1, mid, t3, p, canExit, sent, cancels0, cancels3, lookups0, lookups2, asked, lookups3, from, run);
  }

  lemma TurnEndures(t1: Tables, t2: Tables, t3: Tables, p: PlanId, canExit: bool, sent2: seq<OrderRef>, sent3: seq<OrderRef>,
                  cancels0: seq<OrderRef>, cancels2: seq<OrderRef>, cancels3: seq<OrderRef>, lookups0: seq<Asked>,
                  lookups2: seq<Asked>, lookups3: seq<Asked>, from: nat, run2: seq<World>, run3: seq<World>)
    requires SliceOf(t3, p) == SliceOf(t2, p)
    requires sent2 <= sent3 && cancels2 <= cancels3 && lookups2 <= lookups3 && run2 <= run3
    requires Turned(t1, t2, p, canExit, sent2, cancels0, cancels2, lookups0, lookups2, from, run2)
    ensures Turned(t1, t3, p, canExit, sent3, cancels0, cancels3, lookups0, lookups3, from, run3)
  {
    hide Reconciled, SliceOf, TurnTaken;
    var mid, first, asked :|
      TurnedBy(t1, mid, t2, p, canExit, sent2, cancels0, cancels2, lookups0, first, asked, lookups2, from, run2);
    if HasActivePosition(mid, p) {
      TurnWider(mid, t2, t3, p, canExit, sent2, sent3, cancels0, cancels2, cancels3, asked, lookups2, lookups3);
    }
    var k :| from - 1 <= k < |run2| && 0 <= k && run2[k].tables == mid;
    assert run3[k] == run2[k];
    assert TurnedBy(t1, mid, t3, p, canExit, sent3, cancels0, cancels3, lookups0, first, asked, lookups3, from, run3);
  }

  lemma TurnWider(t: Tables, t2: Tables, t3: Tables, p: PlanId, canExit: bool, sent2: seq<OrderRef>, sent3: seq<OrderRef>,
                  cancels0: seq<OrderRef>, cancels2: seq<OrderRef>, cancels3: seq<OrderRef>, asked: seq<Asked>,
                  lookups2: seq<Asked>, lookups3: seq<Asked>)
    requires SliceOf(t3, p) == SliceOf(t2, p)
    requires sent2 <= sent3 && cancels2 <= cancels3 && asked <= lookups2 <= lookups3
    requires TurnTaken(t, t2, p, canExit, sent2, cancels0, cancels2, asked, lookups2)
    ensures TurnTaken(t, t3, p, canExit, sent3, cancels0, cancels3, asked, lookups3)
  {
    hide SliceOf, TouchedOnly, IsQuietAttempt, Total, StopTried;
    var s := SliceOf(t, p);
    if OverCommits(s) {
      StopStays(s.attempts[|s.attempts| - 1], p, |s.attempts|, cancels0, cancels2, cancels3, asked, lookups2, lookups3);
    }
  }

  lemma StopStays(a: AttemptRow, p: PlanId, m: nat, cancels0: seq<OrderRef>, cancels2: seq<OrderRef>,
                  cancels3: seq<OrderRef>, asked: seq<Asked>, lookups2: seq<Asked>, lookups3: seq<Asked>)
    requires cancels2 <= cancels3 && asked <= lookups2 <= lookups3
    requires StopTried(a, p, m, cancels0, cancels2, asked, lookups2)
    ensures StopTried(a, p, m, cancels0, cancels3, asked, lookups3)
  {
    hide AskedSince;
    if a.state == Remotely(CancelRequested) {
      AskedEarlier(asked, lookups2, lookups3, Exit(p, m));
    } else if a.orderId.Some? {
      var k :| |cancels0| <= k < |cancels2| && cancels2[k] == Exit(p, m);
      assert cancels3[k] == Exit(p, m);
    }
  }

  /** The first `i` positions had their turns, and the others are as they were. */
  ghost predicate TurnsTaken(t1: Tables, t: Tables, ids: seq<PlanId>, i: nat, canExit: bool, sent: seq<OrderRef>,
                             cancels: seq<OrderRef>, cancels': seq<OrderRef>, lookups: seq<Asked>, lookups': seq<Asked>,
                             from: nat, run: seq<World>)
  {
    && i <= |ids|
    && (forall a, b :: 0 <= a < b < |ids| ==> ids[a] != ids[b])
    && (forall j :: i <= j < |ids| ==> SliceOf(t, ids[j]) == SliceOf(t1, ids[j]))
    && (forall k :: 0 <= k < i ==>
          Answered(t, ids[k]) && Turned(t1, t, ids[k], canExit, sent, cancels, cancels', lookups, lookups', from, run))
  }

  lemma TurnsBegin(t: Tables, ids: seq<PlanId>, canExit: bool, sent: seq<OrderRef>, cancels: seq<OrderRef>,
                   lookups: seq<Asked>, from: nat, run: seq<World>)
    requires forall a, b :: 0 <= a < b < |ids| ==> ids[a] != ids[b]
    ensures TurnsTaken(t, t, ids, 0, canExit, sent, cancels, cancels, lookups, lookups, from, run)
  {
    hide Turned;
  }

  /** One more turn leaves the later plans and the earlier turns alone. */
  lemma TurnNext(t1: Tables, t2: Tables, mid: Tables, t3: Tables, ids: seq<PlanId>, i: nat, canExit: bool,
                 sent2: seq<OrderRef>, sent3: seq<OrderRef>, cancels0: seq<OrderRef>, cancels2: seq<OrderRef>,
                 cancels3: seq<OrderRef>, lookups0: seq<Asked>, lookups2: seq<Asked>, asked: seq<Asked>,
                 lookups3: seq<Asked>, from: nat, run2: seq<World>, run3: seq<World>)
    requires i < |ids| && SameOthers(t2, t3, ids[i]) && Answered(t3, ids[i]) && Advances(t2, t3)
    requires sent2 <= sent3 && cancels0 <= cancels2 <= cancels3 && lookups0 <= lookups2 <= lookups3 && asked <= lookups3
    requires run2 <= run3 && from <= |run2|
    requires TurnsTaken(t1, t2, ids, i, canExit, sent2, cancels0, cancels2, lookups0, lookups2, from, run2)
    requires exists k :: 0 <= k < |run3| && |run2| - 1 <= k && run3[k].tables == mid
    requires Reconciled(t2, mid, ids[i], lookups2, asked)
    requires if HasActivePosition(mid, ids[i]) then TurnTaken(mid, t3, ids[i], canExit, sent3, cancels2, cancels3, asked, lookups3)
             else t3 == mid
    ensures TurnsTaken(t1, t3, ids, i + 1, canExit, sent3, cancels0, cancels3, lookups0, lookups3, from, run3)
  {
    hide SliceOf, Turned, TurnTaken, Reconciled, Advances, Answered, HasActivePosition;
    var from0 :| 0 <= from0 < |run3| && |run2| - 1 <= from0 && run3[from0].tables == mid;
    TurnNow(t1, t2, mid, t3, ids[i], canExit, sent3, cancels0, cancels2, cancels3, lookups0, lookups2, asked, lookups3, from, run3);
    forall j | i + 1 <= j < |ids| ensures SliceOf(t3, ids[j]) == SliceOf(t1, ids[j]) {
      assert ids[j] != ids[i];
    }
    forall k | 0 <= k < i
      ensures Answered(t3, ids[k])
      ensures Turned(t1, t3, ids[k], canExit, sent3, cancels0, cancels3, lookups0, lookups3, from, run3)
    {
      assert ids[k] != ids[i];
      AnsweredStays(t2, t3, ids[k]);
      TurnEndures(t1, t2, t3, ids[k], canExit, sent2, sent3, cancels0, cancels2, cancels3, lookups0, lookups2, lookups3, from, run2, run3);
    }
  }

  lemma TurnsEnd(t0: Tables, t1: Tables, t: Tables, ids: seq<PlanId>, canExit: bool, sent: seq<OrderRef>,
                 cancels: seq<OrderRef>, cancels': seq<OrderRef>, lookups: seq<Asked>, lookups': seq<Asked>,
                 from: nat, run: seq<World>)
    requires TurnsTaken(t1, t, ids, |ids|, canExit, sent, cancels, cancels', lookups, lookups', from, run)
    requires forall p :: p in ids <==> HasActivePosition(t1, p)
    requires forall p :: HasActivePosition(t0, p) ==> HasActivePosition(t1, p) && SliceOf(t1, p) == SliceOf(t0, p)
    ensures forall p :: HasActivePosition(t0, p) ==> Answered(t, p)
    ensures forall p :: HasActivePosition(t0, p) ==>
      Turned(t0, t, p, canExit, sent, cancels, cancels', lookups, lookups', from, run)
  {
    hide SliceOf, Turned, HasActivePosition, Answered;
    forall p | HasActivePosition(t0, p)
      ensures Answered(t, p) && Turned(t0, t, p, canExit, sent, cancels, cancels', lookups, lookups', from, run)
    {
      assert p in ids;
      var k :| 0 <= k < |ids| && ids[k] == p;
      TurnFrom(t0, t1, t, p, canExit, sent, cancels, cancels', lookups, lookups', from, run);
    }
  }

  lemma TurnFrom(t0: Tables, t1: Tables, t': Tables, p: PlanId, canExit: bool, sent: seq<OrderRef>, cancels: seq<OrderRef>,
                 cancels': seq<OrderRef>, lookups: seq<Asked>, lookups': seq<Asked>, from: nat, run: seq<World>)
    requires SliceOf(t1, p) == SliceOf(t0, p)
    requires Turned(t1, t', p, canExit, sent, cancels, cancels', lookups, lookups', from, run)
    ensures Turned(t0, t', p, canExit, sent, cancels, cancels', lookups, lookups', from, run)
  {
    hide TurnTaken, AllAsked, Silent, ToClose;
    SameSlice(t0, t1, p);
    var mid, first, asked :|
      TurnedBy(t1, mid, t', p, canExit, sent, cancels, cancels', lookups, first, asked, lookups', from, run);
    assert TurnedBy(t0, mid, t', p, canExit, sent, cancels, cancels', lookups, first, asked, lookups', from, run);
  }

  /** The agent died while it sent attempt `n`. */
  ghost predicate Died(p: PlanId, n: nat, before: seq<(OrderRef, SubmitReply)>, after: seq<(OrderRef, SubmitReply)>) {
    exists k :: |before| <= k < |after| && after[k] == (Exit(p, n), ProcessDied)
  }

  lemma DiedWhen(p: PlanId, n: nat, before: seq<(OrderRef, SubmitReply)>, after: seq<(OrderRef, SubmitReply)>,
                 reply: Option<SubmitReply>)
    requires after == before + if reply.Some? then [(Exit(p, n), reply.value)] else []
    ensures Died(p, n, before, after) <==> reply == Some(ProcessDied)
  {
    if reply == Some(ProcessDied) {
      assert after[|before|] == (Exit(p, n), ProcessDied);
    }
  }

  lemma NobodyDied(p: PlanId, n: nat, replies: seq<(OrderRef, SubmitReply)>)
    ensures !Died(p, n, replies, replies)
  {
  }

  /** What ends a flatten early: the agent died while it sent the attempt that was due, or a covered position without
      any attempt raised. */
  ghost predicate CutShort(t: Tables, p: PlanId, before: seq<(OrderRef, SubmitReply)>, after: seq<(OrderRef, SubmitReply)>) {
    || (NeedsExit(SliceOf(t, p)) && Died(p, |AttemptsOf(t, p)| + 1, before, after))
    || (AttemptsOf(t, p) == [] && Covers(t, p, FillsOf(t, p)))
  }

  /** It happened at one of the worlds that the run went through after `from`. */
  ghost predicate CutShortAt(from: nat, run: seq<World>, before: seq<(OrderRef, SubmitReply)>,
                             after: seq<(OrderRef, SubmitReply)>)
  {
    exists k, p ::
      0 <= k < |run| && from - 1 <= k && HasActivePosition(run[k].tables, p) && CutShort(run[k].tables, p, before, after)
  }

  lemma CutShortNow(mid: Tables, p: PlanId, from: nat, from2: nat, run: seq<World>, before: seq<(OrderRef, SubmitReply)>,
                    middle: seq<(OrderRef, SubmitReply)>, after: seq<(OrderRef, SubmitReply)>)
    requires from <= from2 && before <= middle
    requires exists k :: 0 <= k < |run| && from2 - 1 <= k && run[k].tables == mid
    requires HasActivePosition(mid, p) && CutShort(mid, p, middle, after)
    ensures CutShortAt(from, run, before, after)
  {
    hide NeedsExit, Covers;
    var k :| 0 <= k < |run| && from2 - 1 <= k && run[k].tables == mid;
    assert CutShort(run[k].tables, p, before, after);
  }

  /** When a new attempt is due. */
  lemma WhenNeeded(t: Tables, p: PlanId)
    requires HasActivePosition(t, p)
    ensures NeedsExit(SliceOf(t, p)) <==>
      && Total(FillsOf(t, p)) < t.positions[p].quantity
      && (AttemptsOf(t, p) != [] ==> Reopens(AttemptsOf(t, p)[|AttemptsOf(t, p)| - 1]))
    ensures forall a :: Reopens(a) ==> IsQuietAttempt(a.state)
  {
  }

  lemma TurnCancels(t: Tables, t': Tables, p: PlanId, canExit: bool, sent: seq<OrderRef>, cancels: seq<OrderRef>,
                    cancels': seq<OrderRef>, lookups: seq<Asked>, lookups': seq<Asked>)
    requires HasActivePosition(t, p) && AttemptsOf(t, p) != []
    requires var latest := AttemptsOf(t, p)[|AttemptsOf(t, p)| - 1];
      && !IsQuietAttempt(latest.state)
      && t.positions[p].quantity <
           Total(FillsOf(t, p)) + Unfilled(latest)
      && StopTried(latest, p, |AttemptsOf(t, p)|, cancels, cancels', lookups, lookups')
    requires TouchedOnly(SliceOf(t, p), SliceOf(t', p), |AttemptsOf(t, p)|)
    ensures TurnTaken(t, t', p, canExit, sent, cancels, cancels', lookups, lookups')
  {
    hide IsQuietAttempt, Total, TouchedOnly, StopTried;
  }

  lemma TurnWaits(t: Tables, p: PlanId, canExit: bool, sent: seq<OrderRef>, cancels: seq<OrderRef>,
                  cancels': seq<OrderRef>, lookups: seq<Asked>, lookups': seq<Asked>)
    requires HasActivePosition(t, p) && AttemptsOf(t, p) != []
    requires var latest := AttemptsOf(t, p)[|AttemptsOf(t, p)| - 1];
      && !Reopens(latest)
      && (IsQuietAttempt(latest.state) || t.positions[p].quantity >=
            Total(FillsOf(t, p)) + Unfilled(latest))
    ensures TurnTaken(t, t, p, canExit, sent, cancels, cancels', lookups, lookups')
  {
    hide IsQuietAttempt, Total, TouchedOnly, StopTried;
  }

  lemma TurnCloses(t: Tables, t': Tables, p: PlanId, r: FlattenResult, canExit: bool, sent: seq<OrderRef>,
                   cancels: seq<OrderRef>, cancels': seq<OrderRef>, lookups: seq<Asked>, lookups': seq<Asked>)
    requires HasActivePosition(t, p) && AttemptsOf(t, p) != [] && Covers(t, p, FillsOf(t, p))
    requires Reopens(AttemptsOf(t, p)[|AttemptsOf(t, p)| - 1]) && CloseEnd(t, t', p, |AttemptsOf(t, p)|, r)
    ensures TurnTaken(t, t', p, canExit, sent, cancels, cancels', lookups, lookups')
    ensures |AttemptsOf(t', p)| == |AttemptsOf(t, p)| && !r.FlattenRaised?
  {
    hide CloseEnd, StopTried, TouchedOnly, Total;
    CloseDecides(t, t', p, |AttemptsOf(t, p)|, r);
  }

  lemma TurnOpens(t: Tables, t': Tables, p: PlanId, canExit: bool, sent: seq<OrderRef>, cancels: seq<OrderRef>,
                  cancels': seq<OrderRef>, lookups: seq<Asked>, lookups': seq<Asked>)
    requires HasActivePosition(t, p) && Total(FillsOf(t, p)) < t.positions[p].quantity
    requires AttemptsOf(t, p) != [] ==> Reopens(AttemptsOf(t, p)[|AttemptsOf(t, p)| - 1])
    requires |AttemptsOf(t', p)| == |AttemptsOf(t, p)| + 1
    requires AttemptsOf(t', p)[|AttemptsOf(t, p)|].requested == t.positions[p].quantity - Total(FillsOf(t, p))
    requires canExit ==> Exit(p, |AttemptsOf(t', p)|) in sent
    ensures TurnTaken(t, t', p, canExit, sent, cancels, cancels', lookups, lookups')
  {
    hide StopTried, TouchedOnly, Total;
  }

  lemma CloseDecides(t: Tables, t': Tables, p: PlanId, n: nat, r: FlattenResult)
    requires HasActivePosition(t, p) && 1 <= n <= |AttemptsOf(t, p)| && CloseEnd(t, t', p, n, r)
    ensures PositionClosed(SliceOf(t', p)) <==> CanCloseNow(t, p)
    ensures r.CleanedUp? || r.CloseRefused?
    ensures |AttemptsOf(t', p)| == |AttemptsOf(t, p)|
  {
  }

  lemma RefusedEnds(t: Tables, p: PlanId, n: nat)
    requires p in t.positions && 1 <= n <= |AttemptsOf(t, p)| && !CanCloseNow(t, p)
    ensures CloseEnd(t, PutAttempt(t, p, n, AttemptsOf(t, p)[n - 1].(state := ReconciliationFailed)), p, n, CloseRefused)
  {
  }

  lemma ClosedEnds(t: Tables, t1: Tables, t2: Tables, p: PlanId, n: nat, quantity: nat, r: FlattenResult)
    requires p in t.positions && 1 <= n <= |AttemptsOf(t, p)| && quantity == Total(FillsOf(t, p))
    requires CanCloseNow(t, p) && t1 == CloseTrade(t, p, quantity).tables
    requires t2 == t1.(attempts := t2.attempts) && PositionClosed(SliceOf(t1, p))
    requires r.CleanedUp? && CleanupDone(SliceOf(t1, p), SliceOf(t2, p), n, r.complete)
    ensures CloseEnd(t, t2, p, n, r)
  {
    hide CleanupDone;
    SameStanding(t1, t2, p, n, r.complete);
  }

  /** No protective cancel of a position that is not closed was taken, so none is recorded. */
  lemma NoneTaken(t: Tables, t1: Tables, p: PlanId, n: nat, taken: seq<(PlanId, string)>)
    requires CancelsAfterClose(t, taken) && RecordsHold(t, taken) && !PositionClosed(SliceOf(t, p))
    requires AttemptsOf(t1, p) == AttemptsOf(t, p) && 1 <= n <= |AttemptsOf(t, p)|
    ensures forall id :: (p, id) !in taken && !IsCancelled(AttemptsOf(t1, p)[n - 1].cleanup, id)
  {
    hide IsCancelled;
    RecordsOf(t, p, n, taken);
  }

  lemma CleanupFollows(t1: Tables, t2: Tables, p: PlanId, n: nat, complete: bool, cancels1: seq<(PlanId, string)>,
                       cancels2: seq<(PlanId, string)>, taken1: seq<(PlanId, string)>, taken2: seq<(PlanId, string)>)
    requires PositionClosed(SliceOf(t1, p)) && p in t1.positions && 1 <= n <= |AttemptsOf(t1, p)|
    requires CleanupDone(SliceOf(t1, p), SliceOf(t2, p), n, complete) && t2.positions == t1.positions
    requires forall id :: (p, id) !in taken1 && !IsCancelled(AttemptsOf(t1, p)[n - 1].cleanup, id)
    requires taken1 <= taken2
    requires 1 <= n <= |AttemptsOf(t2, p)| && forall id :: id in t1.positions[p].protectiveIds ==>
      && (IsCancelled(AttemptsOf(t1, p)[n - 1].cleanup, id) || CancelTried(cancels1, cancels2, p, id))
      && (IsCancelled(AttemptsOf(t2, p)[n - 1].cleanup, id) <==>
            IsCancelled(AttemptsOf(t1, p)[n - 1].cleanup, id) || CancelTried(taken1, taken2, p, id))
    ensures CleanedAfterClose(t2, p, n, complete, cancels2, taken2)
  {
    forall id | id in t1.positions[p].protectiveIds
      ensures (p, id) in cancels2 && (CancelTried(taken1, taken2, p, id) <==> (p, id) in taken2)
    {
      TriedIsLogged(cancels1, cancels2, p, id);
      if (p, id) in taken2 {
        assert forall j :: 0 <= j < |taken1| ==> taken2[j] == taken1[j];
        var k :| 0 <= k < |taken2| && taken2[k] == (p, id);
        assert k >= |taken1|;
      }
    }
  }

  /** All that a row of attempt `n` changes: the attempt, its own ledger row, and the partial-exit mark. */
  ghost predicate RowEffect(t: Tables, t': Tables, p: PlanId, n: nat, row: Row)
    requires 1 <= n <= |AttemptsOf(t, p)|
  {
    && AttemptsOf(t', p) == AttemptsOf(t, p)[n - 1 := Observe(AttemptsOf(t, p)[n - 1], row)]
    && FillsOf(t', p) == LedgerWith(FillsOf(t, p), n, row)
    && t'.positions == MarkedIn(t.positions, p, Total(FillsOf(t', p)))
    && t'.orders == t.orders && t'.plans == t.plans && t'.trades == t.trades
  }

  lemma RowTouches(t: Tables, t': Tables, p: PlanId, n: nat, row: Row)
    requires 1 <= n <= |AttemptsOf(t, p)| && RowEffect(t, t', p, n, row)
    ensures TouchedOnly(SliceOf(t, p), SliceOf(t', p), n)
    ensures HasActivePosition(t', p) <==> HasActivePosition(t, p)
    ensures p in t.positions <==> p in t'.positions
    ensures p in t.positions ==> t'.positions[p].quantity == t.positions[p].quantity
    ensures RowTaken(t, t', p, n, row)
  {
    hide Observe;
  }

  /** Every protective order the agent ever asked to cancel protects a position that is CLOSED. */
  ghost predicate CancelsAfterClose(t: Tables, log: seq<(PlanId, string)>) {
    forall k :: 0 <= k < |log| ==> PositionClosed(SliceOf(t, log[k].0))
  }

  /** Every record of a cancel that went through is true: the exchange took it. */
  ghost predicate RecordsHold(t: Tables, accepted: seq<(PlanId, string)>) {
    forall p, i, id :: p in t.attempts && 0 <= i < |t.attempts[p]| && IsCancelled(t.attempts[p][i].cleanup, id) ==>
      (p, id) in accepted
  }

  lemma RecordsStay(t: Tables, t': Tables, accepted: seq<(PlanId, string)>)
    requires RecordsHold(t, accepted) && t'.attempts == t.attempts
    ensures RecordsHold(t', accepted)
  {
  }

  lemma RecordsLonger(t: Tables, before: seq<(PlanId, string)>, after: seq<(PlanId, string)>)
    requires RecordsHold(t, before) && before <= after
    ensures RecordsHold(t, after)
  {
  }

  /** One attempt is written whose records hold. */
  lemma RecordsPatched(t: Tables, p: PlanId, n: nat, a: AttemptRow, accepted: seq<(PlanId, string)>)
    requires RecordsHold(t, accepted) && 1 <= n <= |AttemptsOf(t, p)|
    requires forall id :: IsCancelled(a.cleanup, id) ==> (p, id) in accepted
    ensures RecordsHold(PutAttempt(t, p, n, a), accepted)
  {
  }

  lemma RecordsOf(t: Tables, p: PlanId, n: nat, accepted: seq<(PlanId, string)>)
    requires RecordsHold(t, accepted) && 1 <= n <= |AttemptsOf(t, p)|
    ensures forall id :: IsCancelled(AttemptsOf(t, p)[n - 1].cleanup, id) ==> (p, id) in accepted
  {
  }

  lemma RecordsOpened(t: Tables, p: PlanId, requested: nat, accepted: seq<(PlanId, string)>)
    requires RecordsHold(t, accepted)
    ensures RecordsHold(CreateAttempt(t, p, requested), accepted)
  {
  }

  lemma TriedIsLogged(before: seq<(PlanId, string)>, after: seq<(PlanId, string)>, p: PlanId, id: string)
    requires CancelTried(before, after, p, id)
    ensures (p, id) in after
  {
  }

  lemma NothingTried(log: seq<(PlanId, string)>, p: PlanId)
    ensures forall id :: !CancelTried(log, log, p, id)
  {
  }

  /** What is persisted of a cleanup, and that it is true. */
  lemma PersistedHold(recorded: map<string, bool>, cleanup: map<string, bool>, persisted: map<string, bool>,
                      ids: seq<string>, p: PlanId, before: seq<(PlanId, string)>, after: seq<(PlanId, string)>)
    requires before <= after && persisted.Keys <= cleanup.Keys
    requires (forall id :: id in ids <==> id in persisted) && forall id :: id in persisted ==> persisted[id] == cleanup[id]
    requires forall id :: IsCancelled(cleanup, id) <==> IsCancelled(recorded, id) || CancelTried(before, after, p, id)
    requires forall id :: IsCancelled(recorded, id) ==> (p, id) in before
    ensures forall id :: IsCancelled(persisted, id) ==> (p, id) in after
    ensures forall id :: id in ids ==>
      (IsCancelled(persisted, id) <==> IsCancelled(recorded, id) || CancelTried(before, after, p, id))
  {
    forall id | IsCancelled(persisted, id) ensures (p, id) in after {
      assert IsCancelled(cleanup, id);
      if !IsCancelled(recorded, id) {
        TriedIsLogged(before, after, p, id);
      }
    }
  }

  /** One answer more in the log of cancels that were taken. */
  lemma TakenStays(before: seq<(PlanId, string)>, middle: seq<(PlanId, string)>, after: seq<(PlanId, string)>,
                   p: PlanId, id: string, ok: bool)
    requires before <= middle && after == if ok then middle + [(p, id)] else middle
    ensures before <= after
    ensures forall o :: CancelTried(before, after, p, o) <==> CancelTried(before, middle, p, o) || (ok && o == id)
  {
    if ok {
      TriedStays(before, middle, after, p, id);
    }
    forall o | CancelTried(before, after, p, o) ensures CancelTried(before, middle, p, o) || (ok && o == id) {
      var k :| |before| <= k < |after| && after[k] == (p, o);
    }
  }

  /** The cleanup record says that the cancel of `id` went through. */
  predicate IsCancelled(cleanup: map<string, bool>, id: string) {
    id in cleanup && cleanup[id]
  }

  /** The cancel of protective order `id` was sent since the log was `before`. */
  ghost predicate CancelTried(before: seq<(PlanId, string)>, after: seq<(PlanId, string)>, p: PlanId, id: string) {
    exists k :: |before| <= k < |after| && after[k] == (p, id)
  }

  /** Of the first `m` attempts every one but number `n` has stopped. */
  predicate QuietUpTo(attempts: seq<AttemptRow>, m: nat, n: nat) {
    forall i :: 0 <= i < m && i < |attempts| && i != n - 1 ==> IsQuietAttempt(attempts[i].state)
  }

  /** Every protective id of a position was recorded CANCELLED with attempt `n`, or its cancel was sent. */
  ghost predicate CleanupTried(t: Tables, p: PlanId, n: nat, before: seq<(PlanId, string)>,
                               after: seq<(PlanId, string)>) {
    p in t.positions && 1 <= n <= |AttemptsOf(t, p)| &&
    forall id :: id in t.positions[p].protectiveIds ==>
      IsCancelled(AttemptsOf(t, p)[n - 1].cleanup, id) || CancelTried(before, after, p, id)
  }

  /** The reply leaves open whether the exit went through, or says that it did. */
  predicate NeedsFollowUp(reply: Option<SubmitReply>) {
    reply.Some? && (reply.value.Uncertain? || reply.value.Accepted?)
  }

  /** The attempt after the reply to its submission; None is an agent that cannot send exits. */
  function AfterReply(a: AttemptRow, reply: Option<SubmitReply>): AttemptRow {
    match reply
    case None => a.(state := Remotely(Rejected))
    case Some(ProcessDied) => a
    case Some(Uncertain) => a.(state := Remotely(SubmissionUnknown))
    case Some(PreRejected) => a.(state := Failed)
    case Some(OtherError) => a.(state := Failed)
    case Some(RefusedCode) => a.(state := Remotely(Rejected), terminalConfirmed := true, reconciliationComplete := true)
    case Some(Accepted(orderId)) => a.(state := Remotely(Submitted), orderId := orderId)
  }

  /** The reply says that nothing will ever fill. */
  predicate IsRefusalReply(reply: Option<SubmitReply>) {
    reply.Some? && (reply.value.RefusedCode? || reply.value.PreRejected?)
  }

  /** What the reply to an exit says of its attempt. No reply, or a refusal by code, rejects it, and only the refusal is
      confirmed; any error before it left fails it; an uncertain one is unknown, an accepted one submitted under
      its id. Only the last two are followed up, and nothing else of the attempt changes. */
  lemma ReplyMeans(a: AttemptRow, reply: Option<SubmitReply>)
    ensures var b := AfterReply(a, reply);
      && b == a.(state := b.state, orderId := b.orderId, terminalConfirmed := b.terminalConfirmed,
                 reconciliationComplete := b.reconciliationComplete)
      && (reply.None? ==> b.state == Remotely(Rejected))
      && (reply == Some(RefusedCode) ==> b.state == Remotely(Rejected) && b.terminalConfirmed && b.reconciliationComplete)
      && (reply in {Some(PreRejected), Some(OtherError)} ==> b.state == Failed)
      && (reply == Some(Uncertain) ==> b.state == Remotely(SubmissionUnknown))
      && (reply.Some? && reply.value.Accepted? ==> b.state == Remotely(Submitted) && b.orderId == reply.value.orderId)
      && (reply == Some(ProcessDied) ==> b == a)
      && ((reply.Some? && reply.value.Accepted?) || b.orderId == a.orderId)
      && (reply == Some(RefusedCode) ||
          (b.terminalConfirmed == a.terminalConfirmed && b.reconciliationComplete == a.reconciliationComplete))
      && (NeedsFollowUp(reply) <==> reply.Some? && (reply.value.Accepted? || reply.value == Uncertain))
  {
  }

  lemma ReplyAllowed(s: Slice, n: nat, reply: Option<SubmitReply>)
    requires 1 <= n <= |s.attempts| && reply != Some(ProcessDied)
    requires !s.attempts[n - 1].terminalConfirmed
    ensures if IsRefusalReply(reply) then IsRefusal(s.attempts[n - 1], AfterReply(s.attempts[n - 1], reply))
            else ClaimsNothing(s, AfterReply(s.attempts[n - 1], reply), n)
  {
  }

  lemma FollowUpAskable(s: AttemptState)
    requires s == Remotely(SubmissionUnknown) || s == Remotely(Submitted)
    ensures IsAskable(s)
  {
  }

  /** Of the first `n` attempts of a CLOSED position every unfinished cleanup was retried. */
  ghost predicate Retried(t: Tables, p: PlanId, n: nat, before: seq<(PlanId, string)>, after: seq<(PlanId, string)>) {
    n <= |AttemptsOf(t, p)| &&
    forall i :: 0 <= i < n && AttemptsOf(t, p)[i].state.CleanupIncomplete? && PositionClosed(SliceOf(t, p)) ==>
      CleanupTried(t, p, i + 1, before, after)
  }

  /** Of the first `n` attempts each is FILLED or in cleanup, or the exchange was asked about it. */
  ghost predicate AllAsked(attempts: seq<AttemptRow>, n: nat, p: PlanId, before: seq<Asked>, after: seq<Asked>) {
    n <= |attempts| && forall i :: 0 <= i < n && IsAskable(attempts[i].state) ==> AskedSince(before, after, Exit(p, i + 1))
  }

  /** Attempts other than number `n` that had stopped are as they were. */
  predicate QuietKept(a: seq<AttemptRow>, b: seq<AttemptRow>, n: nat) {
    |b| == |a| && forall i :: 0 <= i < |a| && i != n - 1 && IsQuietAttempt(a[i].state) ==> b[i] == a[i]
  }

  /** Every attempt but number `n` has stopped. */
  predicate OthersQuiet(attempts: seq<AttemptRow>, n: nat) {
    forall i :: 0 <= i < |attempts| && i != n - 1 ==> IsQuietAttempt(attempts[i].state)
  }

  /** What a cleanup of a CLOSED position leaves: only attempt `n` changed; every protective id has
      a record, none is forgotten, and the attempt is FILLED exactly when all are cancelled. */
  ghost predicate CleanupDone(s: Slice, s': Slice, n: nat, complete: bool)
    requires 1 <= n <= |s.attempts| && s.position.Some?
  {
    && TouchedOnly(s, s', n) && s'.fills == s.fills && s'.position == s.position
    && var ids := s.position.value.protectiveIds;
    && var before, after := s.attempts[n - 1].cleanup, s'.attempts[n - 1].cleanup;
    && (forall id :: id in ids ==> id in after && (IsCancelled(before, id) ==> IsCancelled(after, id)))
    && (complete <==> !(s.position.value.protected && ids == []) && forall id :: id in ids ==> IsCancelled(after, id))
    && (forall id :: id in after ==> id in ids)
    && s'.attempts[n - 1] == s.attempts[n - 1].(state := if complete then Remotely(Filled) else CleanupIncomplete,
         terminalConfirmed := true, reconciliationComplete := complete, cleanup := after)
  }

  /** A position that was asked to flatten is closed or has an attempt. */
  predicate Answered(t: Tables, p: PlanId) {
    PositionClosed(SliceOf(t, p)) || AttemptsOf(t, p) != []
  }

  lemma AnsweredStays(t: Tables, t': Tables, p: PlanId)
    requires Advances(t, t') && Answered(t, p)
    ensures Answered(t', p)
  {
    assert Forward(SliceOf(t, p), SliceOf(t', p));
  }

  lemma NotOpen(t: Tables, truth: Truth, sent: seq<OrderRef>, p: PlanId)
    requires Inv(t, truth, sent) && p in t.positions && !IsManaged(t.positions[p].state)
    ensures Answered(t, p)
  {
    assert PlanInv(p, SliceOf(t, p), truth);
  }

  /** A position that was open is still open, or it is closed. */
  lemma OpenOrClosed(t: Tables, t': Tables, truth: Truth, sent: seq<OrderRef>)
    requires Inv(t', truth, sent) && Advances(t, t')
    ensures forall p :: HasActivePosition(t, p) ==> HasActivePosition(t', p) || Answered(t', p)
  {
    forall p | HasActivePosition(t, p) ensures HasActivePosition(t', p) || Answered(t', p) {
      PositionStays(t, t', p);
      if !IsManaged(t'.positions[p].state) {
        NotOpen(t', truth, sent, p);
      }
    }
  }

  lemma CancelledIsRecorded(cleanup: map<string, bool>, id: string)
    requires IsCancelled(cleanup, id)
    ensures id in cleanup
  {
  }

  lemma TriedStays(before: seq<(PlanId, string)>, middle: seq<(PlanId, string)>, after: seq<(PlanId, string)>,
                   p: PlanId, id: string)
    requires before <= middle && after == middle + [(p, id)]
    ensures CancelTried(before, after, p, id)
    ensures forall o :: CancelTried(before, middle, p, o) ==> CancelTried(before, after, p, o)
  {
    assert after[|middle|] == (p, id);
    forall o | CancelTried(before, middle, p, o) ensures CancelTried(before, after, p, o) {
      var k :| |before| <= k < |middle| && middle[k] == (p, o);
      assert after[k] == (p, o);
    }
  }

  lemma RecordOne(recorded: map<string, bool>, cleanup: map<string, bool>, id: string, ok: bool)
    requires forall k :: IsCancelled(recorded, k) ==> IsCancelled(cleanup, k)
    requires !IsCancelled(cleanup, id)
    ensures forall k :: IsCancelled(cleanup[id := ok], k) <==> (ok && k == id) || IsCancelled(cleanup, k)
    ensures forall k :: IsCancelled(recorded, k) ==> IsCancelled(cleanup[id := ok], k)
    ensures forall k :: IsCancelled(cleanup[id := ok], k) ==> k == id || IsCancelled(cleanup, k)
    ensures !IsCancelled(recorded, id)
  {
    forall k | IsCancelled(recorded, k) ensures IsCancelled(cleanup[id := ok], k) {
      assert IsCancelled(cleanup, k);
    }
  }

  /** A position that was open and is touched by one attempt only is still open. */
  lemma StillActive(t: Tables, t': Tables, truth: Truth, sent: seq<OrderRef>, p: PlanId, m: nat)
    requires Inv(t', truth, sent)
    requires HasActivePosition(t, p) && TouchedOnly(SliceOf(t, p), SliceOf(t', p), m)
    ensures HasActivePosition(t', p)
  {
    assert PlanInv(p, SliceOf(t', p), truth);
  }

  lemma CancelsStay(t: Tables, t': Tables, log: seq<(PlanId, string)>)
    requires CancelsAfterClose(t, log) && Endures(t, t')
    ensures CancelsAfterClose(t', log)
  {
    forall k | 0 <= k < |log| ensures PositionClosed(SliceOf(t', log[k].0)) {
      assert Keeps(SliceOf(t, log[k].0), SliceOf(t', log[k].0));
    }
  }

  lemma Untouched(s: Slice, attempts: seq<AttemptRow>, n: nat)
    ensures TouchedOnly(s, s, n) && QuietKept(attempts, attempts, n)
  {
  }

  lemma RetryBegins(t: Tables, p: PlanId, log: seq<(PlanId, string)>)
    ensures RetryPending(t, t, p, 0) && Retried(t, p, 0, log, log)
  {
  }

  lemma TriedLonger(t: Tables, p: PlanId, n: nat, before: seq<(PlanId, string)>, middle: seq<(PlanId, string)>,
                    after: seq<(PlanId, string)>)
    requires CleanupTried(t, p, n, before, middle) && before <= middle <= after
    ensures CleanupTried(t, p, n, before, after)
  {
    forall id | id in t.positions[p].protectiveIds && CancelTried(before, middle, p, id) ensures CancelTried(before, after, p, id) {
      var k :| |before| <= k < |middle| && middle[k] == (p, id);
      assert after[k] == (p, id);
    }
  }

  lemma TriedEarlier(t: Tables, p: PlanId, n: nat, before: seq<(PlanId, string)>, middle: seq<(PlanId, string)>,
                     after: seq<(PlanId, string)>)
    requires CleanupTried(t, p, n, middle, after) && before <= middle <= after
    ensures CleanupTried(t, p, n, before, after)
  {
    forall id | id in t.positions[p].protectiveIds && CancelTried(middle, after, p, id) ensures CancelTried(before, after, p, id) {
      var k :| |middle| <= k < |after| && after[k] == (p, id);
    }
  }

  lemma RetriedLonger(t: Tables, p: PlanId, n: nat, before: seq<(PlanId, string)>, middle: seq<(PlanId, string)>,
                      after: seq<(PlanId, string)>)
    requires Retried(t, p, n, before, middle) && before <= middle <= after
    ensures Retried(t, p, n, before, after)
  {
    hide CleanupTried;
    forall i | 0 <= i < n && AttemptsOf(t, p)[i].state.CleanupIncomplete? && PositionClosed(SliceOf(t, p))
      ensures CleanupTried(t, p, i + 1, before, after)
    {
      TriedLonger(t, p, i + 1, before, middle, after);
    }
  }

  lemma RetriedStill(t: Tables, before: seq<(PlanId, string)>, middle: seq<(PlanId, string)>,
                     after: seq<(PlanId, string)>)
    requires before <= middle <= after
    requires forall p :: Retried(t, p, |AttemptsOf(t, p)|, before, middle)
    ensures forall p :: Retried(t, p, |AttemptsOf(t, p)|, before, after)
  {
    hide Retried;
    forall p ensures Retried(t, p, |AttemptsOf(t, p)|, before, after) {
      RetriedLonger(t, p, |AttemptsOf(t, p)|, before, middle, after);
    }
  }

  /** The same attempt of the same position was retried. */
  lemma TriedAlike(t0: Tables, t: Tables, p: PlanId, n: nat, before: seq<(PlanId, string)>,
                   after: seq<(PlanId, string)>)
    requires CleanupTried(t, p, n, before, after) && SliceOf(t, p).position == SliceOf(t0, p).position
    requires 1 <= n <= |AttemptsOf(t0, p)| && AttemptsOf(t, p)[n - 1] == AttemptsOf(t0, p)[n - 1]
    ensures CleanupTried(t0, p, n, before, after)
  {
    hide CancelTried;
  }

  lemma RetryOne(t0: Tables, t1: Tables, t2: Tables, p: PlanId, n: nat,
                 before: seq<(PlanId, string)>, middle: seq<(PlanId, string)>, after: seq<(PlanId, string)>)
    requires 1 <= n <= |AttemptsOf(t0, p)| && before <= middle <= after
    requires RetryPending(t0, t1, p, n - 1) && Retried(t0, p, n - 1, before, middle)
    requires QuietKept(AttemptsOf(t1, p), AttemptsOf(t2, p), n)
    requires SliceOf(t2, p).position == SliceOf(t1, p).position
    requires PositionClosed(SliceOf(t1, p)) ==> CleanupTried(t1, p, n, middle, after)
    ensures RetryPending(t0, t2, p, n) && Retried(t0, p, n, before, after)
  {
    hide CleanupTried, SliceOf;
    RetriedLonger(t0, p, n - 1, before, middle, after);
    if AttemptsOf(t0, p)[n - 1].state.CleanupIncomplete? && PositionClosed(SliceOf(t0, p)) {
      TriedEarlier(t1, p, n, before, middle, after);
      TriedAlike(t0, t1, p, n, before, after);
    }
  }

  lemma RetrySkips(t0: Tables, t: Tables, p: PlanId, n: nat, before: seq<(PlanId, string)>,
                   after: seq<(PlanId, string)>)
    requires 1 <= n <= |AttemptsOf(t0, p)|
    requires RetryPending(t0, t, p, n - 1) && Retried(t0, p, n - 1, before, after)
    requires !AttemptsOf(t, p)[n - 1].state.CleanupIncomplete?
    ensures RetryPending(t0, t, p, n) && Retried(t0, p, n, before, after)
  {
    hide CleanupTried, SliceOf;
  }

  lemma RetriedStay(t0: Tables, t1: Tables, t2: Tables, ids: seq<PlanId>, i: nat,
                    before: seq<(PlanId, string)>, middle: seq<(PlanId, string)>, after: seq<(PlanId, string)>)
    requires i < |ids| && SameOthers(t1, t2, ids[i]) && before <= middle <= after
    requires forall a, b :: 0 <= a < b < |ids| ==> ids[a] != ids[b]
    requires forall j :: i <= j < |ids| ==> SliceOf(t1, ids[j]) == SliceOf(t0, ids[j])
    requires forall k :: 0 <= k < i ==> Retried(t0, ids[k], |AttemptsOf(t0, ids[k])|, before, middle)
    requires Retried(t1, ids[i], |AttemptsOf(t1, ids[i])|, middle, after)
    ensures forall j :: i + 1 <= j < |ids| ==> SliceOf(t2, ids[j]) == SliceOf(t0, ids[j])
    ensures forall k :: 0 <= k <= i ==> Retried(t0, ids[k], |AttemptsOf(t0, ids[k])|, before, after)
  {
    hide SliceOf, Retried;
    forall j | i + 1 <= j < |ids| ensures SliceOf(t2, ids[j]) == SliceOf(t0, ids[j]) {
      assert ids[j] != ids[i];
    }
    forall k | 0 <= k < i ensures Retried(t0, ids[k], |AttemptsOf(t0, ids[k])|, before, after) {
      RetriedLonger(t0, ids[k], |AttemptsOf(t0, ids[k])|, before, middle, after);
    }
    RetriedAlike(t0, t1, ids[i], before, middle, after);
  }

  lemma RetriedAlike(t0: Tables, t: Tables, p: PlanId, before: seq<(PlanId, string)>, middle: seq<(PlanId, string)>,
                     after: seq<(PlanId, string)>)
    requires SliceOf(t, p) == SliceOf(t0, p) && before <= middle <= after
    requires Retried(t, p, |AttemptsOf(t, p)|, middle, after)
    ensures Retried(t0, p, |AttemptsOf(t0, p)|, before, after)
  {
    hide CleanupTried, SliceOf;
    SameSlice(t0, t, p);
    forall i | 0 <= i < |AttemptsOf(t0, p)| && AttemptsOf(t0, p)[i].state.CleanupIncomplete? && PositionClosed(SliceOf(t0, p))
      ensures CleanupTried(t0, p, i + 1, before, after)
    {
      TriedEarlier(t, p, i + 1, before, middle, after);
      TriedAlike(t0, t, p, i + 1, before, after);
    }
  }

  lemma RetriedAll(t: Tables, ids: seq<PlanId>, before: seq<(PlanId, string)>, after: seq<(PlanId, string)>)
    requires forall p :: p in ids <==> p in t.attempts.Keys
    requires forall k :: 0 <= k < |ids| ==> Retried(t, ids[k], |AttemptsOf(t, ids[k])|, before, after)
    ensures forall p :: Retried(t, p, |AttemptsOf(t, p)|, before, after)
  {
    hide CleanupTried;
    forall p ensures Retried(t, p, |AttemptsOf(t, p)|, before, after) {
      if p in t.attempts {
        assert p in ids;
        var k :| 0 <= k < |ids| && ids[k] == p;
      }
    }
  }

  lemma NoneAsked(attempts: seq<AttemptRow>, p: PlanId, before: seq<Asked>, after: seq<Asked>)
    ensures AllAsked(attempts, 0, p, before, after)
  {
  }

  lemma AskedOneMore(a: seq<AttemptRow>, b: seq<AttemptRow>, n: nat, p: PlanId, before: seq<Asked>,
                     middle: seq<Asked>, after: seq<Asked>)
    requires 1 <= n <= |a| && QuietKept(a, b, n) && before <= middle <= after
    requires AllAsked(a, n - 1, p, before, middle)
    requires IsAskable(a[n - 1].state) ==> AskedSince(middle, after, Exit(p, n))
    requires !IsAskable(a[n - 1].state) ==> !IsAskable(b[n - 1].state)
    ensures AllAsked(b, n, p, before, after)
  {
    assert forall i :: 0 <= i < n - 1 && !IsAskable(a[i].state) ==> b[i] == a[i];
    forall i | 0 <= i < n && IsAskable(b[i].state) ensures AskedSince(before, after, Exit(p, i + 1)) {
      if i == n - 1 {
        var k :| |middle| <= k < |after| && after[k].order == Exit(p, n);
      } else {
        AskedEarlier(before, middle, after, Exit(p, i + 1));
      }
    }
  }

  lemma AttemptsMissing(t: Tables, p: PlanId)
    ensures AttemptsOf(t, p) == if p in t.attempts then t.attempts[p] else []
  {
  }

  lemma AttemptsPresent(t: Tables, p: PlanId)
    requires p in t.attempts
    ensures AttemptsOf(t, p) == t.attempts[p]
  {
  }

  lemma AttemptKinds(s: AttemptState)
    ensures IsAskable(s) <==> !s.CleanupIncomplete? && s != Remotely(Filled)
    ensures FlattenState(AttemptReported(s)) == Some(s)
  {
  }

  lemma TouchedKeepsQuiet(t: Tables, t': Tables, p: PlanId, n: nat)
    requires TouchedOnly(SliceOf(t, p), SliceOf(t', p), n)
    ensures QuietKept(AttemptsOf(t, p), AttemptsOf(t', p), n) && |AttemptsOf(t', p)| == |AttemptsOf(t, p)|
    ensures PositionClosed(SliceOf(t', p)) <==> PositionClosed(SliceOf(t, p))
  {
  }

  lemma NoneQuiet(attempts: seq<AttemptRow>, n: nat)
    ensures QuietUpTo(attempts, 0, n)
  {
  }

  lemma AllQuiet(attempts: seq<AttemptRow>, n: nat)
    requires QuietUpTo(attempts, |attempts|, n)
    ensures OthersQuiet(attempts, n)
  {
  }

  lemma FinalIsQuiet(s: AttemptState)
    requires IsFinalAttempt(s)
    ensures IsQuietAttempt(s)
  {
  }

  /** Attempts other than `m` are as they were. */
  lemma TouchedRows(t: Tables, t': Tables, p: PlanId, m: nat)
    requires TouchedOnly(SliceOf(t, p), SliceOf(t', p), m)
    ensures |AttemptsOf(t', p)| == |AttemptsOf(t, p)|
    ensures forall i :: 0 <= i < |AttemptsOf(t, p)| && i != m - 1 ==> AttemptsOf(t', p)[i] == AttemptsOf(t, p)[i]
  {
  }

  lemma QuietThrough(a: seq<AttemptRow>, b: seq<AttemptRow>, c: seq<AttemptRow>, n: nat, m: nat)
    requires QuietKept(a, b, n) && |c| == |b| && 1 <= m <= |b|
    requires forall i :: 0 <= i < |b| && i != m - 1 ==> c[i] == b[i]
    requires m != n && !IsQuietAttempt(b[m - 1].state)
    ensures QuietKept(a, c, n)
  {
  }

  lemma QuietOneMore(a: seq<AttemptRow>, b: seq<AttemptRow>, m: nat, n: nat)
    requires 1 <= m <= |a| && |b| == |a| && QuietUpTo(a, m - 1, n)
    requires forall i :: 0 <= i < |a| && i != m - 1 ==> b[i] == a[i]
    requires m != n ==> IsQuietAttempt(b[m - 1].state)
    ensures QuietUpTo(b, m, n)
  {
  }

  lemma OthersAsBefore(a: seq<AttemptRow>, b: seq<AttemptRow>, c: seq<AttemptRow>, n: nat)
    requires QuietKept(a, b, n) && OthersQuiet(b, n) && |c| == |b|
    requires forall i :: 0 <= i < |b| && i != n - 1 ==> c[i] == b[i]
    ensures QuietKept(a, c, n) && OthersQuiet(c, n)
  {
  }

  lemma QuietTransitive(a: seq<AttemptRow>, b: seq<AttemptRow>, c: seq<AttemptRow>, n: nat)
    requires QuietKept(a, b, n) && QuietKept(b, c, n)
    ensures QuietKept(a, c, n) && |c| == |a|
  {
  }

  /** What a cleanup leaves of the attempt and of the position. */
  lemma CleanedAttempt(t: Tables, t': Tables, p: PlanId, n: nat, r: FlattenResult)
    requires 1 <= n <= |AttemptsOf(t, p)| && AttemptsOf(t, p)[n - 1].state.CleanupIncomplete?
    requires !PositionClosed(SliceOf(t, p)) ==> r.ReconciliationRequired? && t' == t
    requires PositionClosed(SliceOf(t, p)) ==> r.CleanedUp? && CleanupDone(SliceOf(t, p), SliceOf(t', p), n, r.complete)
    ensures QuietKept(AttemptsOf(t, p), AttemptsOf(t', p), n) && TouchedOnly(SliceOf(t, p), SliceOf(t', p), n)
    ensures |AttemptsOf(t', p)| == |AttemptsOf(t, p)|
    ensures SliceOf(t', p).position == SliceOf(t, p).position
    ensures !IsAskable(AttemptsOf(t', p)[n - 1].state)
    ensures FlattenState(r).Some? ==> AttemptsOf(t', p)[n - 1].state == FlattenState(r).value
    ensures PositionClosed(SliceOf(t', p)) <==> PositionClosed(SliceOf(t, p))
    ensures PositionClosed(SliceOf(t, p)) <==> r.CleanedUp?
  {
  }

  lemma CleanupTriedNow(t: Tables, p: PlanId, n: nat, before: seq<(PlanId, string)>, after: seq<(PlanId, string)>)
    requires PositionClosed(SliceOf(t, p)) && 1 <= n <= |AttemptsOf(t, p)|
    requires forall id :: p in t.positions && id in t.positions[p].protectiveIds ==>
      IsCancelled(AttemptsOf(t, p)[n - 1].cleanup, id) || CancelTried(before, after, p, id)
    ensures CleanupTried(t, p, n, before, after)
  {
  }

  lemma CleanupIsDone(t: Tables, t': Tables, p: PlanId, n: nat, a: AttemptRow, cleanup: map<string, bool>,
                      complete: bool)
    requires PositionClosed(SliceOf(t, p)) && 1 <= n <= |AttemptsOf(t, p)|
    requires SliceOf(t', p) == SliceOf(t, p).(attempts := AttemptsOf(t, p)[n - 1 := a])
    requires var ids := SliceOf(t, p).position.value.protectiveIds;
      && (forall id :: id in ids ==> id in cleanup)
      && (forall id :: IsCancelled(AttemptsOf(t, p)[n - 1].cleanup, id) ==> IsCancelled(cleanup, id))
      && a.cleanup == (map id | id in ids :: cleanup[id])
      && (complete <==> !(SliceOf(t, p).position.value.protected && ids == []) && forall id :: id in ids ==> a.cleanup[id])
      && a == AttemptsOf(t, p)[n - 1].(state := if complete then Remotely(Filled) else CleanupIncomplete,
           terminalConfirmed := true, reconciliationComplete := complete, cleanup := a.cleanup)
    ensures CleanupDone(SliceOf(t, p), SliceOf(t', p), n, complete)
  {
    var before := AttemptsOf(t, p)[n - 1].cleanup;
    forall id | id in SliceOf(t, p).position.value.protectiveIds
      ensures id in a.cleanup && (IsCancelled(before, id) ==> IsCancelled(a.cleanup, id))
    {
      assert IsCancelled(before, id) ==> IsCancelled(cleanup, id);
    }
  }

  lemma CleanedParts(t: Tables, t': Tables, p: PlanId, n: nat, complete: bool)
    requires 1 <= n <= |AttemptsOf(t, p)| && SliceOf(t, p).attempts == AttemptsOf(t, p) && SliceOf(t, p).position.Some?
    requires CleanupDone(SliceOf(t, p), SliceOf(t', p), n, complete)
    ensures FillsOf(t', p) == FillsOf(t, p) && SliceOf(t', p).position == SliceOf(t, p).position
    ensures |AttemptsOf(t', p)| == |AttemptsOf(t, p)|
    ensures forall i :: 0 <= i < |AttemptsOf(t, p)| && i != n - 1 ==> AttemptsOf(t', p)[i] == AttemptsOf(t, p)[i]
  {
  }

  /** A cleanup of a CLOSED position leaves the position, the ledger and every other attempt alone. */
  lemma SameStanding(t: Tables, t': Tables, p: PlanId, n: nat, complete: bool)
    requires PositionClosed(SliceOf(t, p)) && 1 <= n <= |AttemptsOf(t, p)| && SliceOf(t, p).attempts == AttemptsOf(t, p)
    requires CleanupDone(SliceOf(t, p), SliceOf(t', p), n, complete)
    ensures FillsOf(t', p) == FillsOf(t, p) && PositionClosed(SliceOf(t', p))
    ensures SliceOf(t', p).position == SliceOf(t, p).position
    ensures |AttemptsOf(t', p)| == |AttemptsOf(t, p)|
    ensures forall i :: 0 <= i < |AttemptsOf(t, p)| && i != n - 1 ==> AttemptsOf(t', p)[i] == AttemptsOf(t, p)[i]
  {
    hide CleanupDone;
    CleanedParts(t, t', p, n, complete);
  }
}
