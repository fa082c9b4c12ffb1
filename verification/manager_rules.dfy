/** What the operations on orders, positions and exits return and promise, and the lemmas about single tables and lists
    that their proofs use. */
module ManagerRules {
  import opened Wrappers
  import opened OrderStates
  import opened Exchanges
  import opened TradeTables
  import opened Protocol
  import opened ProtocolSteps
  import opened SliceEffects
  import opened ProtocolRuns

  /** The number of lookups in a targeted reconciliation: one per delay of its schedule. */
  const TARGETED_LOOKUPS := 4

  datatype EntryResult =
    | OrderMissing
    | EntryUnseen(state: OrderState)                               // the lookup found nothing
    | EntryRaised                                                  // the transition table refused
    | EntrySeen(state: OrderState, managed: Option<OrderState>)

  function EntryState(r: EntryResult): Option<OrderState> {
    if r.EntryUnseen? || r.EntrySeen? then Some(r.state) else None
  }

  /** One order was asked about once, or twice when the first answer was empty; `row` is the last
      answer. */
  predicate AskedFor(before: seq<Asked>, after: seq<Asked>, r: OrderRef, row: Option<Row>) {
    || after == before + [Asked(r, row)]
    || after == before + [Asked(r, None), Asked(r, row)]
  }

  predicate IsMerelyOpen(s: OrderState) {
    s.Submitted? || s.Open? || s.PartiallyFilled?
  }

  /** A bounded pursuit: at least one question and at most two per turn, and fewer than all turns only
      when the order reached a final state. */
  predicate Pursues(before: nat, after: nat, final: bool) {
    && before < after <= before + 2 * TARGETED_LOOKUPS
    && (!final ==> before + TARGETED_LOOKUPS <= after)
  }

  /** The result ends the pursuit of a submission; of a cancel only when it leaves no position unprotected. */
  ghost predicate EndsLane(r: EntryResult) {
    (r.EntryUnseen? || r.EntrySeen?) && (r.state == Filled || r.state == Cancelled || r.state == Rejected)
  }

  ghost predicate EndsCancel(r: EntryResult) {
    EndsLane(r) && !(r.EntrySeen? && r.managed == Some(PositionUnprotected))
  }

  /** After a cancel request these results are passed on; any other says that the cancel is still requested. */
  ghost predicate TellsTheEnd(r: EntryResult) {
    EndsLane(r) || (r.EntryUnseen? && r.state == PositionUnprotected) ||
    (r.EntrySeen? && (r.state == PositionUnprotected || r.managed == Some(PositionUnprotected)))
  }

  /** The turns of a pursuit: up to four, and one more exactly when none before it ended it; each asks once or twice. */
  ghost predicate TurnsUntil(said: seq<EntryResult>, ends: EntryResult -> bool, before: nat, after: nat) {
    && 1 <= |said| <= TARGETED_LOOKUPS
    && (forall k :: 0 <= k < |said| - 1 ==> !ends(said[k]))
    && (|said| == TARGETED_LOOKUPS || ends(said[|said| - 1]))
    && before + |said| <= after <= before + 2 * |said|
  }

  /** The order was asked about since the log was `before`. */
  ghost predicate AskedSince(before: seq<Asked>, after: seq<Asked>, r: OrderRef) {
    exists k :: |before| <= k < |after| && after[k].order == r
  }

  lemma AskedAtLeast(before: seq<Asked>, after: seq<Asked>, r: OrderRef, row: Option<Row>)
    requires AskedFor(before, after, r, row)
    ensures before <= after && AskedSince(before, after, r)
  {
    assert after[|before|].order == r;
  }

  lemma AskedEarlier(before: seq<Asked>, middle: seq<Asked>, after: seq<Asked>, r: OrderRef)
    requires before <= middle <= after && AskedSince(before, middle, r)
    ensures AskedSince(before, after, r)
  {
    var k :| |before| <= k < |middle| && middle[k].order == r;
    assert after[k].order == r;
  }

  lemma AskedStays(before: seq<Asked>, middle: seq<Asked>, after: seq<Asked>, r: OrderRef)
    requires before <= middle && exists row: Option<Row> :: AskedFor(middle, after, r, row)
    ensures before <= after && AskedSince(before, after, r)
    ensures forall o :: AskedSince(before, middle, o) ==> AskedSince(before, after, o)
  {
    var row: Option<Row> :| AskedFor(middle, after, r, row);
    assert after[|middle|].order == r;
    forall o | AskedSince(before, middle, o) ensures AskedSince(before, after, o) {
      var k :| |before| <= k < |middle| && middle[k].order == o;
      assert after[k].order == o;
    }
  }

  /** What a reconcile makes of the answer: no row changes nothing, a row whose state the table
      refuses changes nothing, and any other row is what the order now shows, except that an order
      that was asked to cancel does not go back to being open. */
  predicate ReconciledAs(o: OrderRow, o': OrderRow, row: Option<Row>, r: EntryResult) {
    match row
    case None => r == EntryUnseen(o.state) && o' == o
    case Some(w) =>
      var s := MapState(w, o.requested);
      if !Allowed(o.state, s) then r.EntryRaised? && o' == o
      else
        && r.EntrySeen? && r.state == o'.state
        && o'.filled == w.filled && o'.requested == o.requested
        && o'.orderId == (if w.orderId.Some? then w.orderId else o.orderId)
        && if o.state.CancelRequested? && IsMerelyOpen(s) then o'.state.CancelRequested?
           else o'.state == s || (s.Filled? && w.filled > 0 && o'.state.PositionUnprotected?)
  }

  /** The row says that the whole order filled. */
  predicate IsFullFill(row: Row, requested: nat) {
    !row.raw.RawCanceled? && !row.raw.RawRejected? && (row.raw.RawFilled? || (requested > 0 && row.filled >= requested))
  }

  /** The row leaves a position to manage: something filled, and the order was not rejected. */
  predicate LeavesPosition(row: Row, requested: nat) {
    && row.filled > 0 && !row.raw.RawRejected?
    && (row.raw.RawCanceled? || row.raw.RawFilled? || row.raw.RawPartiallyFilled? || requested > 0)
  }

  /** The position after a row that leaves one: it shows the row and the verdict, and it is
      POSITION_UNPROTECTED exactly when the order is over and the verdict is not protected. */
  predicate PositionShown(row: Row, requested: nat, v: Verdict, z: PositionRow) {
    && z.quantity == row.filled && z.protected == v.protected && z.protectiveIds == v.ids
    && (z.state.PositionUnprotected? <==> (row.raw.RawCanceled? || IsFullFill(row, requested)) && !v.protected)
    && (IsFullFill(row, requested) && v.protected ==> z.state.Filled?)
    && (!IsFullFill(row, requested) && (v.protected || !row.raw.RawCanceled?) ==> z.state.PartiallyFilled?)
  }

  /** The order after such a row: POSITION_UNPROTECTED exactly when it filled and the verdict is not
      protected. */
  predicate OrderShown(row: Row, requested: nat, v: Verdict, state: OrderState) {
    && (state.PositionUnprotected? <==> IsFullFill(row, requested) && !v.protected)
    && (IsFullFill(row, requested) && v.protected ==> state.Filled?)
    && (row.raw.RawCanceled? ==> state.Cancelled?)
    && (!IsFullFill(row, requested) && !row.raw.RawCanceled? ==> state.PartiallyFilled?)
  }

  /** What a row that was taken leaves of the position, and what the result says about it. */
  ghost predicate ShownAs(s: Slice, s': Slice, row: Row, requested: nat, v: Verdict, r: EntryResult) {
    && r.EntrySeen?
    && if LeavesPosition(row, requested)
       then s'.position.Some? && PositionShown(row, requested, v, s'.position.value) && r.managed == Some(s'.position.value.state)
       else s'.position == s.position && r.managed.None?
  }

  lemma FullLeaves(row: Row, requested: nat)
    requires IsFullFill(row, requested) && row.filled > 0
    ensures LeavesPosition(row, requested)
  {
  }

  /** An order that filled is not merely open. */
  lemma ShownIsOpen(row: Row, requested: nat, v: Verdict, state: OrderState)
    requires LeavesPosition(row, requested) ==> OrderShown(row, requested, v, state)
    requires IsMerelyOpen(state)
    ensures !(IsFullFill(row, requested) && row.filled > 0)
  {
  }

  lemma ShownMoves(s: Slice, s1: Slice, s2: Slice, row: Row, requested: nat, v: Verdict, r: EntryResult)
    requires ShownAs(s, s1, row, requested, v, r) && s2.position == s1.position
    ensures ShownAs(s, s2, row, requested, v, EntrySeen(CancelRequested, r.managed))
  {
  }

  /** The trades after a priced fill of `quantity` lots: the row of the plan appears, grows while its trade is open, and
      never shrinks; no other row changes. */
  ghost function TradesWith(trades: map<PlanId, TradeRow>, p: PlanId, price: real, quantity: nat): map<PlanId, TradeRow> {
    if p in trades && (trades[p].exited || quantity <= trades[p].quantity) then trades
    else trades[p := TradeRow(quantity, price, false)]
  }

  lemma EntryFillTrades(t: Tables, p: PlanId, price: real, quantity: nat)
    ensures RecordEntryFill(t, p, price, quantity) == t.(trades := TradesWith(t.trades, p, price, quantity))
  {
  }

  /** The trades after a row: a priced one that leaves a position is recorded. */
  ghost function TradesShown(trades: map<PlanId, TradeRow>, p: PlanId, row: Row, requested: nat): map<PlanId, TradeRow> {
    if LeavesPosition(row, requested) && row.average.Some?
    then TradesWith(trades, p, row.average.value, row.filled) else trades
  }

  /** The exchange answered with `row`, said `v` about protection if that was asked, and both are shown. */
  ghost predicate AnsweredWith(row: Row, v: Verdict, s: Slice, s': Slice, requested: nat, p: PlanId, r: EntryResult,
                               lookups: seq<Asked>, lookups': seq<Asked>,
                               verdicts: seq<(PlanId, Verdict)>, verdicts': seq<(PlanId, Verdict)>,
                               trades: map<PlanId, TradeRow>, trades': map<PlanId, TradeRow>)
  {
    && trades' == TradesShown(trades, p, row, requested)
    && AskedFor(lookups, lookups', Entry(p), Some(row))
    && ShownAs(s, s', row, requested, v, r)
    && (IsFullFill(row, requested) && row.filled > 0 ==> OrderShown(row, requested, v, r.state))
    && verdicts' == verdicts + if LeavesPosition(row, requested) then [(p, v)] else []
  }

  /** A row leaves a position exactly when its state and its quantity call for one. */
  lemma LeavesWhen(row: Row, requested: nat)
    requires row.filled <= requested
    ensures LeavesPosition(row, requested) <==> HasManagedFill(MapState(row, requested), row.filled)
  {
  }

  lemma AppliedShows(s: Slice, s': Slice, row: Row, v: Verdict, r: EntryResult)
    requires s.order.Some? && row.filled <= s.order.value.requested && Applied(s, s', row, v)
    requires r.EntrySeen? && r.managed ==
      (if HasManagedFill(MapState(row, s.order.value.requested), row.filled)
       then Some(ManagedState(MapState(row, s.order.value.requested), v)) else None)
    ensures ShownAs(s, s', row, s.order.value.requested, v, r)
    ensures LeavesPosition(row, s.order.value.requested) ==>
      OrderShown(row, s.order.value.requested, v, s'.order.value.state)
  {
  }

  /** The row left a position without verified protection. */
  predicate LeftUnprotected(r: EntryResult) {
    r.EntrySeen? && r.managed == Some(PositionUnprotected)
  }

  /** What an order that was asked to cancel can still become. */
  predicate IsCancelOutcome(s: OrderState) {
    s.CancelRequested? || s.Cancelled? || s.Rejected? || s.Filled? || s.PositionUnprotected?
  }

  datatype CancelResult = BlockedLocally(plan: PlanId) | CancelReported(plan: PlanId, state: Option<OrderState>)

  /** What cancelling does for an order that was active: one not yet submitted is blocked, the exchange is asked
      about one whose submission or cancel it has not confirmed, a cancel is asked for every open one it has an id
      for, and any that was pending is reported or no longer pending. */
  ghost predicate Pursued(p: PlanId, o: OrderRow, results: seq<CancelResult>, orders: map<PlanId, OrderRow>,
                          before: seq<OrderRef>, after: seq<OrderRef>, lookups: seq<Asked>, lookups': seq<Asked>)
  {
    && (o.state.Approved? ==> BlockedLocally(p) in results)
    && (IsPending(o.state) ==>
          (exists k :: 0 <= k < |results| && results[k].plan == p) || (p in orders && !IsPending(orders[p].state)))
    && (IsMerelyOpen(o.state) && o.orderId.Some? ==> CancelAsked(before, after, p))
    && (o.state.CancelRequested? || o.state.SubmissionUnknown? ==> AskedSince(lookups, lookups', Entry(p)))
    && (IsPending(o.state) && p in orders && IsMerelyOpen(orders[p].state) && orders[p].orderId.Some? ==>
          CancelAsked(before, after, p))
  }

  /** The exchange was asked to cancel the entry of plan `p` since the log was `before`. */
  ghost predicate CancelAsked(before: seq<OrderRef>, after: seq<OrderRef>, p: PlanId) {
    exists k :: |before| <= k < |after| && after[k] == Entry(p)
  }

  /** The same of one turn: the order was `o` and is `o'`. */
  ghost predicate TurnPursues(p: PlanId, o: OrderRow, o': OrderRow, r: Option<CancelResult>, before: seq<OrderRef>,
                              after: seq<OrderRef>, lookups: seq<Asked>, lookups': seq<Asked>)
  {
    && (o.state.Approved? ==> r == Some(BlockedLocally(p)))
    && (IsPending(o.state) ==> r.Some? || !IsPending(o'.state))
    && (IsMerelyOpen(o.state) && o.orderId.Some? ==> CancelAsked(before, after, p))
    && (o.state.CancelRequested? || o.state.SubmissionUnknown? ==> AskedSince(lookups, lookups', Entry(p)))
    && (IsPending(o.state) && IsMerelyOpen(o'.state) && o'.orderId.Some? ==> CancelAsked(before, after, p))
    && (!IsPending(o.state) ==> r.None? && o' == o && after == before && lookups' == lookups)
  }

  /** The states in which the table lets a cancel be requested. */
  ghost predicate MayBeCancelled(s: OrderState) {
    s == Submitted || s == SubmissionUnknown || s == Open || s == PartiallyFilled || s == CancelRequested
  }

  lemma CancellableStates(s: OrderState)
    ensures MayBeCancelled(s) <==> Allowed(s, CancelRequested)
  {
  }

  /** A cancel that was taken and recorded: the order ended or is known to be cancelled, and it was asked about
      until it ended or the schedule did. */
  ghost predicate CancelFollowed(p: PlanId, orders: map<PlanId, OrderRow>, lookups: seq<Asked>, lookups': seq<Asked>) {
    && p in orders && IsCancelOutcome(orders[p].state) && lookups <= lookups'
    && AskedSince(lookups, lookups', Entry(p))
    && (orders[p].state.CancelRequested? ==> |lookups| + TARGETED_LOOKUPS <= |lookups'|)
    && (Silent(lookups, lookups') ==> orders[p].state.CancelRequested?)
  }

  /** What a cancel result claims holds of the stored order: a blocked one was never sent, and a reported state is
      the stored one, or the cancel is requested and on record. */
  predicate TrueResult(r: CancelResult, orders: map<PlanId, OrderRow>, sent: seq<OrderRef>) {
    match r
    case BlockedLocally(p) => p in orders && orders[p].state.Rejected? && Entry(p) !in sent
    case CancelReported(p, state) =>
      && state.Some? && p in orders
      && (orders[p].state == state.value || (state.value.CancelRequested? && IsCancelOutcome(orders[p].state)))
  }

  datatype ExitResult =
    | Unlinked(plan: PlanId)
    | HistoryIncomplete(plan: PlanId)
    | PartialExit(plan: PlanId, quantity: nat)
    | ExitClosed(plan: PlanId)

  ghost predicate HasResult(results: seq<ExitResult>, p: PlanId) {
    exists k :: 0 <= k < |results| && results[k].plan == p
  }

  /** What an exit result claims: unlinked or incomplete plans are untouched; a partial exit
      reports the whole ledger, which does not cover the position; a closed one is closed. */
  ghost predicate TrueExit(r: ExitResult, t: Tables, t': Tables) {
    var s, s' := SliceOf(t, r.plan), SliceOf(t', r.plan);
    match r
    case Unlinked(_) => s' == s && s.position.Some? && s.position.value.protectiveIds == []
    case HistoryIncomplete(_) => s' == s
    case PartialExit(_, quantity) =>
      && quantity == Total(s'.fills)
      && s'.position.Some? && quantity < s'.position.value.quantity
      && (s'.fills != map[] ==> s'.position.value.state.ExitPartiallyFilled?)
    case ExitClosed(_) => PositionClosed(s') && s'.position.value.quantity <= Total(s'.fills)
  }

  /** What an exit pass makes of the fill history it read: nothing of an incomplete one, and of a complete one exactly
      its fills are added to the ledger. A position that the ledger then covers is closed, or the close raises; any
      other is marked with what is sold. */
  ghost predicate ReadAs(t: Tables, t': Tables, p: PlanId, read: FillRead, r: Option<ExitResult>) {
    && read.plan == p && p in t.positions
    && if !read.complete then r == Some(HistoryIncomplete(p)) && t' == t
       else
         var ledger, z := IgnoreInsert(FillsOf(t, p), read.fills), t.positions[p];
         && FillsOf(t', p) == ledger
         && if Total(ledger) < z.quantity then
              && r == Some(PartialExit(p, Total(ledger)))
              && t' == t.(fills := t'.fills, positions :=
                   if ledger == map[] then t.positions
                   else t.positions[p := z.(state := ExitPartiallyFilled, exitFilled := Total(ledger))])
            else if CanCloseNow(t, p) then
              && r == Some(ExitClosed(p)) && p in t'.positions && p in t'.orders && p in t'.trades
              && t'.positions[p] == z.(state := Closed, exitFilled := Total(ledger))
              && t'.orders[p] == t.orders[p].(state := Closed) && t'.trades[p] == t.trades[p].(exited := true)
            else r.None? && t' == t.(fills := t'.fills)
  }

  /** What a result says is so, and it comes from a pass over the fill history: exactly a plan without protective
      ids had none. */
  ghost predicate ExitShown(t: Tables, t': Tables, r: ExitResult, passes: seq<FillRead>, passes': seq<FillRead>) {
    && TrueExit(r, t, t')
    && (r.Unlinked? <==> r.plan in t.positions && t.positions[r.plan].protectiveIds == [])
    && (!r.Unlinked? ==> exists k :: |passes| <= k < |passes'| && ReadFor(SliceOf(t, r.plan), SliceOf(t', r.plan), r, passes'[k]))
  }

  ghost predicate ReadFor(s: Slice, s': Slice, r: ExitResult, read: FillRead) {
    && read.plan == r.plan && (r.HistoryIncomplete? <==> !read.complete)
    && (read.complete ==> s'.fills == IgnoreInsert(s.fills, read.fills))
  }

  /** The ledger covers an open position that the close transaction does not take. */
  ghost predicate StuckOpen(t: Tables, p: PlanId) {
    Covers(t, p, FillsOf(t, p)) && !CanCloseNow(t, p)
  }

  /** The order states after a cancel request: those the table leads to from there, and that are not merely open. */
  lemma OutcomeMeans(s: OrderState)
    ensures IsMerelyOpen(s) <==> s in {Submitted, Open, PartiallyFilled}
    ensures IsCancelOutcome(s) <==> Allowed(CancelRequested, s) && !IsMerelyOpen(s)
  {
  }

  datatype SubmitResult =
    | Duplicate
    | NotPending
    | PreSubmitRejected
    | SubmissionUnreconciled
    | RefusedByExchange
    | Submission(result: EntryResult)
    | Interrupted

  /** What a submission comes to. A refusal rejects the order, whoever it came from; an agent that died wrote
      nothing; an accepted order keeps the id it was given; and an uncertain one waits as SUBMISSION_UNKNOWN. The last
      two are asked about, and stay as they are when nothing is answered. */
  ghost predicate RepliedAs(reply: SubmitReply, o: OrderRow, o': OrderRow, r: SubmitResult, lookups: seq<Asked>,
                            lookups': seq<Asked>)
  {
    match reply
    case ProcessDied => r.Interrupted? && o' == o && lookups' == lookups
    case PreRejected => r.PreSubmitRejected? && o' == o.(state := Rejected) && lookups' == lookups
    case OtherError => r.PreSubmitRejected? && o' == o.(state := Rejected) && lookups' == lookups
    case RefusedCode => r.RefusedByExchange? && o' == o.(state := Rejected) && lookups' == lookups
    case Uncertain =>
      && (r.SubmissionUnreconciled? || (r.Submission? && r.result.EntrySeen? && r.result.state == o'.state))
      && (Silent(lookups, lookups') ==> r.SubmissionUnreconciled? && o' == o.(state := SubmissionUnknown))
      && AskedOn(o, o', lookups, lookups')
    case Accepted(orderId) =>
      && r.Submission? && (EntryState(r.result).Some? ==> EntryState(r.result).value == o'.state)
      && (Silent(lookups, lookups') ==> r.result == EntryUnseen(Submitted) && o' == o.(state := Submitted, orderId := orderId))
      && (orderId.Some? ==> o'.orderId.Some?)
      && AskedOn(o, o', lookups, lookups')
  }

  /** The executor was asked once about the entry of plan `p`, and its order became what it said. */
  ghost predicate SubmittedFor(p: PlanId, requested: nat, lotNotional: Notional, orders: map<PlanId, OrderRow>,
                               r: SubmitResult, replies: seq<(OrderRef, SubmitReply)>, replies': seq<(OrderRef, SubmitReply)>,
                               lookups: seq<Asked>, lookups': seq<Asked>)
  {
    && |replies'| == |replies| + 1 && replies <= replies' && replies'[|replies|].0 == Entry(p)
    && p in orders
    && RepliedAs(replies'[|replies|].1, OrderRow(requested, 0, Submitted, None, lotNotional), orders[p], r, lookups, lookups')
  }

  lemma RepliedKinds(reply: SubmitReply, o: OrderRow, o': OrderRow, r: SubmitResult, lookups: seq<Asked>, lookups': seq<Asked>)
    requires RepliedAs(reply, o, o', r, lookups, lookups')
    ensures !r.Duplicate? && !r.NotPending? && o'.requested == o.requested
    ensures r.PreSubmitRejected? || r.RefusedByExchange? ==> o'.state.Rejected?
  {
  }

  /** The order was asked about until it ended or the schedule did; its request did not change. */
  ghost predicate AskedOn(o: OrderRow, o': OrderRow, lookups: seq<Asked>, lookups': seq<Asked>) {
    && o'.requested == o.requested && o'.lotNotional == o.lotNotional
    && Pursues(|lookups|, |lookups'|, o'.state == Filled || o'.state == Cancelled || o'.state == Rejected)
  }

  /** The ledger `m` covers an open position. */
  ghost predicate Covers(t: Tables, p: PlanId, m: map<FillKey, FillRow>) {
    HasActivePosition(t, p) && t.positions[p].quantity <= Total(m)
  }

  /** An open position that the close transaction takes: it has a trade row, and an order in one of the four
      states from which it may be closed. */
  predicate CanCloseNow(t: Tables, p: PlanId) {
    && HasActivePosition(t, p) && p in t.trades && p in t.orders
    && (t.orders[p].state == PartiallyFilled || t.orders[p].state == Filled ||
        t.orders[p].state == PositionUnprotected || t.orders[p].state == Cancelled)
  }

  lemma ClosesWhen(t: Tables, p: PlanId, quantity: nat)
    ensures CloseTrade(t, p, quantity).Written? <==> CanCloseNow(t, p)
  {
  }

  /** No row came back since the log was `before`. */
  ghost predicate Silent(before: seq<Asked>, after: seq<Asked>) {
    forall k :: |before| <= k < |after| ==> after[k].row.None?
  }

  lemma SilentJoin(before: seq<Asked>, middle: seq<Asked>, after: seq<Asked>)
    requires before <= middle <= after
    ensures Silent(before, after) <==> Silent(before, middle) && Silent(middle, after)
  {
    assert forall k :: 0 <= k < |middle| ==> after[k] == middle[k];
  }

  lemma AskedFirstIs(before: seq<Asked>, middle: seq<Asked>, after: seq<Asked>, r: OrderRef, row: Option<Row>)
    requires AskedFor(before, middle, r, row) && middle <= after
    ensures AskedFirst(before, after, r, row) && (row.Some? ==> !Silent(before, after))
    ensures row.None? ==> Silent(before, middle)
  {
    assert after[..|middle|] == middle;
    assert after[|middle| - 1] == middle[|middle| - 1];
  }

  lemma {:induction false} TotalGrows(a: map<FillKey, FillRow>, b: map<FillKey, FillRow>)
    requires forall k :: k in a ==> k in b && a[k].quantity <= b[k].quantity
    ensures Total(a) <= Total(b)
    decreases |a|
  {
    if a != map[] {
      var k :| k in a;
      TotalSplit(a, k);
      TotalSplit(b, k);
      TotalGrows(a - {k}, b - {k});
    }
  }

  lemma LedgerGrows(t: Tables, t': Tables, p: PlanId)
    requires Advances(t, t')
    ensures Total(FillsOf(t, p)) <= Total(FillsOf(t', p))
  {
    assert Forward(SliceOf(t, p), SliceOf(t', p));
    TotalGrows(FillsOf(t, p), FillsOf(t', p));
  }

  lemma NothingAsked(lookups: seq<Asked>)
    ensures Silent(lookups, lookups)
  {
  }

  lemma AskedMore(before: seq<Asked>, after: seq<Asked>, r: OrderRef)
    ensures AskedSince(before, after, r) ==> |before| < |after|
  {
  }

  lemma CoversOpen(t: Tables, p: PlanId)
    requires Covers(t, p, FillsOf(t, p))
    ensures HasActivePosition(t, p) && p in t.positions
  {
  }

  lemma SameClosable(t: Tables, t': Tables, p: PlanId)
    requires HasActivePosition(t, p) && HasActivePosition(t', p) && t'.orders == t.orders && t'.trades == t.trades
    ensures CanCloseNow(t', p) <==> CanCloseNow(t, p)
  {
  }

  lemma AskedLater(before: seq<Asked>, middle: seq<Asked>, after: seq<Asked>, r: OrderRef)
    requires before <= middle <= after && AskedSince(middle, after, r)
    ensures AskedSince(before, after, r)
  {
  }

  /** Open positions are as they were. */
  ghost predicate OpenStay(t0: Tables, t: Tables) {
    forall p :: HasActivePosition(t0, p) ==> SliceOf(t, p) == SliceOf(t0, p)
  }

  lemma OpenStaySame(t0: Tables, t: Tables)
    requires OpenStay(t0, t)
    ensures forall p :: HasActivePosition(t0, p) ==> SliceOf(t, p) == SliceOf(t0, p)
  {
    hide SliceOf;
  }

  lemma OpenAgain(t0: Tables, t1: Tables)
    requires forall p :: HasActivePosition(t0, p) ==> SliceOf(t1, p) == SliceOf(t0, p)
    ensures forall p :: HasActivePosition(t0, p) ==> HasActivePosition(t1, p)
  {
    forall p | HasActivePosition(t0, p) ensures HasActivePosition(t1, p) {
      SameSlice(t0, t1, p);
    }
  }

  lemma OpenStayStill(t0: Tables, t1: Tables, t2: Tables, p: PlanId)
    requires OpenStay(t0, t1) && SameOthers(t1, t2, p)
    requires !PositionClosed(SliceOf(t1, p)) ==> t2 == t1
    ensures OpenStay(t0, t2)
  {
    forall q | HasActivePosition(t0, q) ensures SliceOf(t2, q) == SliceOf(t0, q) {
      assert SliceOf(t1, q) == SliceOf(t0, q);
    }
  }

  lemma SameAttempt(t: Tables, p: PlanId, n: nat)
    requires 1 <= n <= |AttemptsOf(t, p)|
    ensures SliceOf(t, p) == SliceOf(t, p).(attempts := AttemptsOf(t, p)[n - 1 := AttemptsOf(t, p)[n - 1]])
  {
    assert AttemptsOf(t, p)[n - 1 := AttemptsOf(t, p)[n - 1]] == AttemptsOf(t, p);
  }

  lemma SameStandingAfter(t: Tables, t': Tables, p: PlanId)
    requires SliceOf(t', p).position == SliceOf(t, p).position
    ensures PositionClosed(SliceOf(t', p)) <==> PositionClosed(SliceOf(t, p))
  {
  }

  /** The first question of a longer pursuit: it was about `r`, and `row` is the answer. */
  ghost predicate AskedFirst(before: seq<Asked>, after: seq<Asked>, r: OrderRef, row: Option<Row>) {
    exists k :: |before| <= k <= |after| && AskedFor(before, after[..k], r, row)
  }

  lemma KeepsCleanup(a: AttemptRow, row: Row)
    ensures Observe(a, row).cleanup == a.cleanup
  {
  }

  /** A row never shows more than was asked for. */
  lemma RowWithin(t: Tables, truth: Truth, sent: seq<OrderRef>, p: PlanId, row: Row)
    requires Inv(t, truth, sent) && p in t.orders && Reports(truth, Entry(p), row)
    ensures row.filled <= t.orders[p].requested
  {
    assert PlanInv(p, SliceOf(t, p), truth);
  }

  /** The unfinished cleanups after attempt `n` are as they were, and so is the position. */
  ghost predicate RetryPending(t0: Tables, t: Tables, p: PlanId, n: nat) {
    && SliceOf(t, p).position == SliceOf(t0, p).position
    && |AttemptsOf(t, p)| == |AttemptsOf(t0, p)|
    && forall i :: n <= i < |AttemptsOf(t0, p)| && AttemptsOf(t0, p)[i].state.CleanupIncomplete? ==>
         AttemptsOf(t, p)[i] == AttemptsOf(t0, p)[i]
  }

  /** Attempt `n` shows the row, and a priced fill of it is in the ledger. */
  predicate RowTaken(t: Tables, t': Tables, p: PlanId, n: nat, row: Row) {
    && 1 <= n <= |AttemptsOf(t, p)| && n <= |AttemptsOf(t', p)|
    && AttemptsOf(t', p)[n - 1] == Observe(AttemptsOf(t, p)[n - 1], row)
    && (row.filled > 0 && row.average.Some? ==> Recorded(FillsOf(t', p), FlattenFill(n)) == row.filled)
  }

  /** An order that is still APPROVED was never sent, and can be blocked. */
  lemma BlockedIsUnsent(t: Tables, truth: Truth, sent: seq<OrderRef>, p: PlanId)
    requires Inv(t, truth, sent) && p in t.orders && t.orders[p].state.Approved?
    ensures Entry(p) !in sent && Allowed(t.orders[p].state, Rejected)
  {
    NotYetSent(t, truth, sent, p);
  }

  lemma UnseenIsReconciled(o: OrderRow)
    ensures ReconciledAs(o, o, None, EntryUnseen(o.state))
  {
  }

  /** A row of plan `p`'s entry came back that the transition table does not take. */
  ghost predicate RowRefused(t: Tables, p: PlanId, before: seq<Asked>, after: seq<Asked>) {
    && p in t.orders
    && exists k :: |before| <= k < |after| && after[k].order == Entry(p) && after[k].row.Some?
         && !Allowed(t.orders[p].state, MapState(after[k].row.value, t.orders[p].requested))
  }

  lemma RefusalSeen(t: Tables, p: PlanId, before: seq<Asked>, after: seq<Asked>, row: Row, r: EntryResult)
    requires p in t.orders && AskedFor(before, after, Entry(p), Some(row)) && r.EntryRaised?
    requires ReconciledAs(t.orders[p], t.orders[p], Some(row), r)
    ensures RowRefused(t, p, before, after)
  {
    assert after[|after| - 1] == Asked(Entry(p), Some(row));
  }

  lemma RaisedIsReconciled(o: OrderRow, row: Row)
    requires !Allowed(o.state, MapState(row, o.requested))
    ensures ReconciledAs(o, o, Some(row), EntryRaised)
  {
  }

  /** The order row after a row was applied, and after a cancel request was put back. */
  lemma AppliedIsReconciled(t: Tables, t': Tables, p: PlanId, row: Row, v: Verdict, r: EntryResult)
    requires p in t.orders && p in t'.orders && Applied(SliceOf(t, p), SliceOf(t', p), row, v)
    requires r.EntrySeen? && r.state == t'.orders[p].state
    ensures t'.orders[p].filled == row.filled
    ensures var o, o' := t.orders[p], t'.orders[p];
      if o.state.CancelRequested? && IsMerelyOpen(r.state)
      then ReconciledAs(o, o'.(state := CancelRequested), Some(row), EntrySeen(CancelRequested, r.managed))
      else ReconciledAs(o, o', Some(row), r)
    ensures r.state.Cancelled? && !t.orders[p].state.Cancelled? ==> row.raw.RawCanceled?
    ensures IsCancelOutcome(t.orders[p].state) ==> IsMerelyOpen(r.state) || IsCancelOutcome(r.state)
    ensures IsCancelOutcome(t.orders[p].state) && IsMerelyOpen(r.state) ==> t.orders[p].state.CancelRequested?
  {
  }

  lemma MerelyOpenCancels(s: OrderState)
    requires IsMerelyOpen(s)
    ensures Allowed(s, CancelRequested)
  {
  }

  lemma SameOthersReflexive(t: Tables, p: PlanId)
    ensures SameOthers(t, t, p)
  {
  }

  lemma PositionStays(t: Tables, t': Tables, p: PlanId)
    requires Advances(t, t')
    ensures p in t.positions || HasActivePosition(t, p) ==> p in t'.positions
  {
    assert Forward(SliceOf(t, p), SliceOf(t', p));
  }

  lemma HasQuantity(t: Tables, truth: Truth, sent: seq<OrderRef>, p: PlanId)
    requires Inv(t, truth, sent) && p in t.positions
    ensures t.positions[p].quantity > 0
  {
    assert PlanInv(p, SliceOf(t, p), truth);
  }

  /** The loop of `cancel_pending_entries` after `i` of the plans that were active at the start. */
  ghost predicate CancelProgress(t0: Tables, t: Tables, ids: seq<PlanId>, i: nat, results: seq<CancelResult>,
                                 sent: seq<OrderRef>, before: seq<OrderRef>, after: seq<OrderRef>,
                                 lookups: seq<Asked>, lookups': seq<Asked>)
  {
    && i <= |ids| && before <= after && lookups <= lookups'
    && (forall p :: p in ids <==> HasActiveOrder(t0, p))
    && (forall a, b :: 0 <= a < b < |ids| ==> ids[a] != ids[b])
    && (forall j :: i <= j < |ids| ==> SliceOf(t, ids[j]) == SliceOf(t0, ids[j]))
    && ResultsTrue(results, ids, i, t.orders, sent)
    && PursuedUpTo(t0.orders, ids, i, results, t.orders, before, after, lookups, lookups')
  }

  ghost predicate ResultsTrue(results: seq<CancelResult>, ids: seq<PlanId>, i: nat, orders: map<PlanId, OrderRow>,
                              sent: seq<OrderRef>)
    requires i <= |ids|
  {
    forall k :: 0 <= k < |results| ==> results[k].plan in ids[..i] && TrueResult(results[k], orders, sent)
  }

  ghost predicate PursuedUpTo(originals: map<PlanId, OrderRow>, ids: seq<PlanId>, i: nat, results: seq<CancelResult>,
                              orders: map<PlanId, OrderRow>, before: seq<OrderRef>, after: seq<OrderRef>,
                              lookups: seq<Asked>, lookups': seq<Asked>)
    requires i <= |ids|
  {
    forall k :: 0 <= k < i ==>
      ids[k] in originals && Pursued(ids[k], originals[ids[k]], results, orders, before, after, lookups, lookups')
  }

  lemma CancelsBegin(t0: Tables, ids: seq<PlanId>, sent: seq<OrderRef>, cancels: seq<OrderRef>, lookups: seq<Asked>)
    requires forall p :: p in ids <==> HasActiveOrder(t0, p)
    requires forall a, b :: 0 <= a < b < |ids| ==> ids[a] != ids[b]
    ensures CancelProgress(t0, t0, ids, 0, [], sent, cancels, cancels, lookups, lookups)
  {
  }

  lemma CancelNext(t0: Tables, t: Tables, ids: seq<PlanId>, i: nat, results: seq<CancelResult>,
                   sent: seq<OrderRef>, before: seq<OrderRef>, after: seq<OrderRef>, lookups: seq<Asked>, lookups': seq<Asked>)
    requires i < |ids| && CancelProgress(t0, t, ids, i, results, sent, before, after, lookups, lookups')
    ensures ids[i] in t0.orders && ids[i] in t.orders && t.orders[ids[i]] == t0.orders[ids[i]]
  {
    assert ids[i] in ids && SliceOf(t, ids[i]) == SliceOf(t0, ids[i]);
    SameSlice(t0, t, ids[i]);
  }

  lemma CancelsEnd(t0: Tables, t: Tables, ids: seq<PlanId>, results: seq<CancelResult>, sent: seq<OrderRef>,
                   before: seq<OrderRef>, after: seq<OrderRef>, lookups: seq<Asked>, lookups': seq<Asked>)
    requires CancelProgress(t0, t, ids, |ids|, results, sent, before, after, lookups, lookups')
    ensures forall k :: 0 <= k < |results| ==> TrueResult(results[k], t.orders, sent)
    ensures forall p :: HasActiveOrder(t0, p) ==>
      Pursued(p, t0.orders[p], results, t.orders, before, after, lookups, lookups')
  {
    hide TrueResult, Pursued;
    forall p | HasActiveOrder(t0, p) ensures Pursued(p, t0.orders[p], results, t.orders, before, after, lookups, lookups') {
      assert p in ids;
      var k :| 0 <= k < |ids| && ids[k] == p;
    }
  }

  /** One turn: the plan's own result is true and pursues it, and nothing before it is undone. */
  lemma CancelTurn(t0: Tables, t1: Tables, t2: Tables, ids: seq<PlanId>, i: nat, r: Option<CancelResult>,
                   results: seq<CancelResult>, sent: seq<OrderRef>,
                   before: seq<OrderRef>, middle: seq<OrderRef>, after: seq<OrderRef>,
                   lookups0: seq<Asked>, lookups1: seq<Asked>, lookups2: seq<Asked>)
    requires i < |ids| && CancelProgress(t0, t1, ids, i, results, sent, before, middle, lookups0, lookups1)
    requires SameOthers(t1, t2, ids[i]) && middle <= after && lookups1 <= lookups2
    requires ids[i] in t0.orders && ids[i] in t2.orders
    requires r.Some? ==> r.value.plan == ids[i] && TrueResult(r.value, t2.orders, sent)
    requires TurnPursues(ids[i], t0.orders[ids[i]], t2.orders[ids[i]], r, middle, after, lookups1, lookups2)
    ensures CancelProgress(t0, t2, ids, i + 1, if r.Some? then results + [r.value] else results, sent, before, after,
                           lookups0, lookups2)
  {
    hide SliceOf, Pursued, IsReserving, SameOthers, TrueResult, ResultsTrue, PursuedUpTo, HasActiveOrder, TurnPursues;
    CancelFrame(t0, t1, t2, ids, i, results, r, sent);
    PursuedNow(ids[i], t0.orders[ids[i]], r, results, t2.orders, before, middle, after, lookups0, lookups1, lookups2);
    PursuedStill(t1, t2, ids, i, t0.orders, results, if r.Some? then results + [r.value] else results, before, middle, after,
                 lookups0, lookups1, lookups2);
  }

  /** The later plans and the results after one turn of cancelling. */
  lemma CancelFrame(t0: Tables, t1: Tables, t2: Tables, ids: seq<PlanId>, i: nat, results: seq<CancelResult>,
                    r: Option<CancelResult>, sent: seq<OrderRef>)
    requires i < |ids| && SameOthers(t1, t2, ids[i])
    requires forall a, b :: 0 <= a < b < |ids| ==> ids[a] != ids[b]
    requires forall j :: i <= j < |ids| ==> SliceOf(t1, ids[j]) == SliceOf(t0, ids[j])
    requires ResultsTrue(results, ids, i, t1.orders, sent)
    requires r.Some? ==> r.value.plan == ids[i] && TrueResult(r.value, t2.orders, sent)
    ensures forall j :: i + 1 <= j < |ids| ==> SliceOf(t2, ids[j]) == SliceOf(t0, ids[j])
    ensures ResultsTrue(if r.Some? then results + [r.value] else results, ids, i + 1, t2.orders, sent)
  {
    hide SliceOf;
    forall j | i + 1 <= j < |ids| ensures SliceOf(t2, ids[j]) == SliceOf(t0, ids[j]) {
      assert ids[j] != ids[i];
    }
    forall k | 0 <= k < |results| ensures results[k].plan in ids[..i + 1] && TrueResult(results[k], t2.orders, sent) {
      assert results[k].plan != ids[i];
      SameSlice(t2, t1, results[k].plan);
    }
    assert ids[..i + 1][i] == ids[i];
  }

  lemma CancelSent(before: seq<OrderRef>, after: seq<OrderRef>, p: PlanId)
    requires after == before + [Entry(p)]
    ensures CancelAsked(before, after, p)
  {
    assert after[|before|] == Entry(p);
  }

  lemma AskedToCancel(before: seq<OrderRef>, middle: seq<OrderRef>, after: seq<OrderRef>, p: PlanId)
    requires before <= middle <= after
    ensures CancelAsked(before, middle, p) || CancelAsked(middle, after, p) ==> CancelAsked(before, after, p)
  {
    if CancelAsked(before, middle, p) {
      var k :| |before| <= k < |middle| && middle[k] == Entry(p);
      assert after[k] == Entry(p);
    }
  }

  lemma PursuedNow(p: PlanId, o: OrderRow, r: Option<CancelResult>, results: seq<CancelResult>,
                   orders: map<PlanId, OrderRow>, before: seq<OrderRef>, middle: seq<OrderRef>, after: seq<OrderRef>,
                   lookups0: seq<Asked>, lookups1: seq<Asked>, lookups2: seq<Asked>)
    requires r.Some? ==> r.value.plan == p
    requires p in orders && TurnPursues(p, o, orders[p], r, middle, after, lookups1, lookups2)
    requires before <= middle <= after && lookups0 <= lookups1 <= lookups2
    ensures Pursued(p, o, if r.Some? then results + [r.value] else results, orders, before, after, lookups0, lookups2)
  {
    hide CancelAsked, AskedSince;
    AskedToCancel(before, middle, after, p);
    if r.Some? {
      var all := results + [r.value];
      assert all[|results|] == r.value;
    }
    if o.state.CancelRequested? || o.state.SubmissionUnknown? {
      AskedLater(lookups0, lookups1, lookups2, Entry(p));
    }
  }

  lemma PursuedStill(t1: Tables, t2: Tables, ids: seq<PlanId>, i: nat, originals: map<PlanId, OrderRow>,
                     results: seq<CancelResult>, results': seq<CancelResult>,
                     before: seq<OrderRef>, middle: seq<OrderRef>, after: seq<OrderRef>,
                     lookups0: seq<Asked>, lookups1: seq<Asked>, lookups2: seq<Asked>)
    requires i < |ids| && SameOthers(t1, t2, ids[i]) && results <= results'
    requires before <= middle <= after && lookups0 <= lookups1 <= lookups2
    requires forall a, b :: 0 <= a < b < |ids| ==> ids[a] != ids[b]
    requires PursuedUpTo(originals, ids, i, results, t1.orders, before, middle, lookups0, lookups1)
    requires ids[i] in originals && Pursued(ids[i], originals[ids[i]], results', t2.orders, before, after, lookups0, lookups2)
    ensures PursuedUpTo(originals, ids, i + 1, results', t2.orders, before, after, lookups0, lookups2)
  {
    hide SliceOf, Pursued;
    forall k | 0 <= k < i
      ensures Pursued(ids[k], originals[ids[k]], results', t2.orders, before, after, lookups0, lookups2)
    {
      assert ids[k] != ids[i];
      SameSlice(t2, t1, ids[k]);
      PursuedMore(ids[k], originals[ids[k]], results, results', t1.orders, t2.orders, before, middle, after,
                  lookups0, lookups1, lookups2);
    }
  }

  lemma PursuedMore(p: PlanId, o: OrderRow, results: seq<CancelResult>, results': seq<CancelResult>,
                    orders: map<PlanId, OrderRow>, orders': map<PlanId, OrderRow>,
                    before: seq<OrderRef>, middle: seq<OrderRef>, after: seq<OrderRef>,
                    lookups0: seq<Asked>, lookups1: seq<Asked>, lookups2: seq<Asked>)
    requires Pursued(p, o, results, orders, before, middle, lookups0, lookups1) && results <= results'
    requires before <= middle <= after && lookups0 <= lookups1 <= lookups2
    requires (p in orders <==> p in orders') && (p in orders ==> orders'[p] == orders[p])
    ensures Pursued(p, o, results', orders', before, after, lookups0, lookups2)
  {
    hide CancelAsked, AskedSince;
    AskedToCancel(before, middle, after, p);
    if o.state.Approved? {
      var k :| 0 <= k < |results| && results[k] == BlockedLocally(p);
      assert results'[k] == BlockedLocally(p);
    }
    if IsPending(o.state) && exists k :: 0 <= k < |results| && results[k].plan == p {
      var k :| 0 <= k < |results| && results[k].plan == p;
      assert results'[k].plan == p;
    }
    if o.state.CancelRequested? || o.state.SubmissionUnknown? {
      AskedEarlier(lookups0, lookups1, lookups2, Entry(p));
    }
  }

  lemma StillOpen(t: Tables, t': Tables, p: PlanId)
    requires SliceOf(t', p) == SliceOf(t, p) && HasActivePosition(t, p)
    ensures HasActivePosition(t', p)
  {
    SameSlice(t, t', p);
  }

  /** A result speaks only of its own plan, and stays as long as that is as it was. */
  lemma ShownFrom(t0: Tables, t1: Tables, t2: Tables, r: ExitResult, reads0: seq<FillRead>, reads1: seq<FillRead>,
                  reads2: seq<FillRead>)
    requires SliceOf(t1, r.plan) == SliceOf(t0, r.plan) && reads0 <= reads1 <= reads2
    requires ExitShown(t1, t2, r, reads1, reads2)
    ensures ExitShown(t0, t2, r, reads0, reads2)
  {
    hide SliceOf, ReadFor;
    SameSlice(t0, t1, r.plan);
    if !r.Unlinked? {
      var k :| |reads1| <= k < |reads2| && ReadFor(SliceOf(t1, r.plan), SliceOf(t2, r.plan), r, reads2[k]);
    }
  }

  lemma ShownStays(t0: Tables, t1: Tables, t2: Tables, r: ExitResult, reads0: seq<FillRead>, reads1: seq<FillRead>,
                   reads2: seq<FillRead>)
    requires SliceOf(t2, r.plan) == SliceOf(t1, r.plan) && reads1 <= reads2
    requires ExitShown(t0, t1, r, reads0, reads1)
    ensures ExitShown(t0, t2, r, reads0, reads2)
  {
    hide SliceOf, ReadFor;
    if !r.Unlinked? {
      var k :| |reads0| <= k < |reads1| && ReadFor(SliceOf(t0, r.plan), SliceOf(t1, r.plan), r, reads1[k]);
      assert reads2[k] == reads1[k];
    }
  }

  lemma ShownUnlinked(t: Tables, p: PlanId, passes: seq<FillRead>)
    requires p in t.positions && t.positions[p].protectiveIds == []
    ensures ExitShown(t, t, Unlinked(p), passes, passes)
  {
  }

  lemma ShownIncomplete(t: Tables, p: PlanId, passes: seq<FillRead>, found: seq<ProtectiveFill>)
    requires p in t.positions && t.positions[p].protectiveIds != []
    ensures var read := FillRead(p, found, false);
      && ExitShown(t, t, HistoryIncomplete(p), passes, passes + [read])
      && ReadAs(t, t, p, read, Some(HistoryIncomplete(p)))
  {
    var read := FillRead(p, found, false);
    assert (passes + [read])[|passes|] == read;
    assert ReadFor(SliceOf(t, p), SliceOf(t, p), HistoryIncomplete(p), read);
  }

  lemma ShownPartial(t: Tables, t1: Tables, t2: Tables, p: PlanId, passes: seq<FillRead>, found: seq<ProtectiveFill>)
    requires p in t.positions && t.positions[p].protectiveIds != [] && t1 == RecordFills(t, p, found)
    requires var sold := Total(FillsOf(t1, p));
      && sold < t.positions[p].quantity
      && t2 == if FillsOf(t1, p) == map[] then t1
               else t1.(positions := t1.positions[p := t1.positions[p].(state := ExitPartiallyFilled, exitFilled := sold)])
    ensures var r, read := PartialExit(p, Total(FillsOf(t1, p))), FillRead(p, found, true);
      ExitShown(t, t2, r, passes, passes + [read]) && ReadAs(t, t2, p, read, Some(r))
  {
    hide Total, IgnoreInsert;
    var r, read := PartialExit(p, Total(FillsOf(t1, p))), FillRead(p, found, true);
    assert (passes + [read])[|passes|] == read;
    assert ReadFor(SliceOf(t, p), SliceOf(t2, p), r, read);
  }

  lemma ShownClose(t: Tables, t1: Tables, t2: Tables, p: PlanId, passes: seq<FillRead>, found: seq<ProtectiveFill>, ok: bool)
    requires HasActivePosition(t, p) && t.positions[p].protectiveIds != [] && t1 == RecordFills(t, p, found)
    requires t.positions[p].quantity <= Total(FillsOf(t1, p))
    requires ok <==> CanCloseNow(t1, p)
    requires t2 == if ok then CloseTrade(t1, p, Total(FillsOf(t1, p))).tables else t1
    ensures var read := FillRead(p, found, true);
      && (ok ==> ExitShown(t, t2, ExitClosed(p), passes, passes + [read]))
      && ReadAs(t, t2, p, read, if ok then Some(ExitClosed(p)) else None)
      && (!ok ==> StuckOpen(t2, p))
  {
    hide Total, IgnoreInsert;
    var read := FillRead(p, found, true);
    assert (passes + [read])[|passes|] == read;
    assert ok ==> ReadFor(SliceOf(t, p), SliceOf(t2, p), ExitClosed(p), read);
  }

  lemma AllHaveResults(t: Tables, ids: seq<PlanId>, results: seq<ExitResult>)
    requires forall p :: p in ids <==> HasActivePosition(t, p)
    requires |results| == |ids| && forall k :: 0 <= k < |ids| ==> results[k].plan == ids[k]
    ensures forall p :: HasActivePosition(t, p) ==> HasResult(results, p)
  {
    forall p | HasActivePosition(t, p) ensures HasResult(results, p) {
      assert p in ids;
      var k :| 0 <= k < |ids| && ids[k] == p;
      assert results[k].plan == p;
    }
  }

  /** A turn of a loop over distinct plans leaves the later plans and the earlier results alone. */
  lemma LoopFrame(t0: Tables, t1: Tables, t2: Tables, ids: seq<PlanId>, i: nat, results: seq<ExitResult>,
                  reads0: seq<FillRead>, reads1: seq<FillRead>, reads2: seq<FillRead>)
    requires i < |ids| && SameOthers(t1, t2, ids[i]) && reads1 <= reads2
    requires forall a, b :: 0 <= a < b < |ids| ==> ids[a] != ids[b]
    requires forall j :: i <= j < |ids| ==> SliceOf(t1, ids[j]) == SliceOf(t0, ids[j])
    requires |results| == i
    requires forall k :: 0 <= k < i ==> results[k].plan == ids[k] && ExitShown(t0, t1, results[k], reads0, reads1)
    ensures forall j :: i + 1 <= j < |ids| ==> SliceOf(t2, ids[j]) == SliceOf(t0, ids[j])
    ensures forall k :: 0 <= k < i ==> ExitShown(t0, t2, results[k], reads0, reads2)
  {
    hide SliceOf, ExitShown;
    forall j | i + 1 <= j < |ids| ensures SliceOf(t2, ids[j]) == SliceOf(t0, ids[j]) {
      assert ids[j] != ids[i];
    }
    forall k | 0 <= k < i ensures ExitShown(t0, t2, results[k], reads0, reads2) {
      assert ids[k] != ids[i];
      ShownStays(t0, t1, t2, results[k], reads0, reads1, reads2);
    }
  }

  /** Positions that were open are still open. */
  ghost predicate OpenRemains(t0: Tables, t: Tables) {
    forall p :: HasActivePosition(t0, p) ==> HasActivePosition(t, p)
  }

  lemma OpenRemain(t0: Tables, t: Tables)
    ensures OpenRemains(t0, t) ==> forall p :: HasActivePosition(t0, p) ==> HasActivePosition(t, p)
    ensures OpenRemains(t0, t0)
  {
    hide HasActivePosition;
  }

  /** Reconciling an entry leaves its position open. */
  lemma OpenAfter(t0: Tables, t1: Tables, t2: Tables, p: PlanId, r: EntryResult, lookups: seq<Asked>, lookups': seq<Asked>)
    requires OpenRemains(t0, t1) && SameOthers(t1, t2, p)
    requires !r.EntrySeen? ==> t2 == t1
    requires r.EntrySeen? ==> p in t1.orders && exists row, v, verdicts: seq<(PlanId, Verdict)>, verdicts' ::
      AnsweredWith(row, v, SliceOf(t1, p), SliceOf(t2, p), t1.orders[p].requested, p, r, lookups, lookups', verdicts, verdicts',
                   t1.trades, t2.trades)
    ensures OpenRemains(t0, t2)
  {
    forall q | HasActivePosition(t0, q) ensures HasActivePosition(t2, q) {
      if q != p {
        SameSlice(t1, t2, q);
      }
    }
  }

  /** Somewhere in the log the entry of plan `p` was asked about, and the order became what the answer said. */
  ghost predicate EntryReconciled(p: PlanId, o: OrderRow, o': OrderRow, before: seq<Asked>, after: seq<Asked>) {
    exists i, j, row, r :: |before| <= i <= j <= |after| && AskedFor(after[..i], after[..j], Entry(p), row)
                           && ReconciledAs(o, o', row, r) && !r.EntryRaised?
  }

  lemma EntryStays(p: PlanId, o: OrderRow, o': OrderRow, before: seq<Asked>, middle: seq<Asked>, after: seq<Asked>)
    requires EntryReconciled(p, o, o', before, middle) && middle <= after
    ensures EntryReconciled(p, o, o', before, after)
  {
    hide ReconciledAs, AskedFor;
    var i, j, row, r :| |before| <= i <= j <= |middle| && AskedFor(middle[..i], middle[..j], Entry(p), row)
                        && ReconciledAs(o, o', row, r) && !r.EntryRaised?;
    assert after[..i] == middle[..i] && after[..j] == middle[..j];
  }

  /** One more of the active orders was reconciled, and the others are as they were. */
  lemma ReconciledAll(t0: Tables, t1: Tables, t2: Tables, ids: seq<PlanId>, i: nat, r: EntryResult, lookups0: seq<Asked>,
                      lookups1: seq<Asked>, lookups2: seq<Asked>)
    requires i < |ids| && lookups0 <= lookups1 <= lookups2 && SameOthers(t1, t2, ids[i]) && !r.EntryRaised?
    requires forall a, b :: 0 <= a < b < |ids| ==> ids[a] != ids[b]
    requires forall k :: 0 <= k < |ids| ==> ids[k] in t0.orders && ids[k] in t1.orders && ids[k] in t2.orders
    requires forall j :: i <= j < |ids| ==> SliceOf(t1, ids[j]) == SliceOf(t0, ids[j])
    requires forall k :: 0 <= k < i ==> EntryReconciled(ids[k], t0.orders[ids[k]], t1.orders[ids[k]], lookups0, lookups1)
    requires exists row: Option<Row> ::
      AskedFor(lookups1, lookups2, Entry(ids[i]), row) && ReconciledAs(t1.orders[ids[i]], t2.orders[ids[i]], row, r)
    ensures forall j :: i + 1 <= j < |ids| ==> SliceOf(t2, ids[j]) == SliceOf(t0, ids[j])
    ensures forall k :: 0 <= k <= i ==> EntryReconciled(ids[k], t0.orders[ids[k]], t2.orders[ids[k]], lookups0, lookups2)
  {
    hide SliceOf, ReconciledAs, EntryReconciled, AskedFor;
    forall j | i + 1 <= j < |ids| ensures SliceOf(t2, ids[j]) == SliceOf(t0, ids[j]) {
      assert ids[j] != ids[i];
    }
    forall k | 0 <= k < i ensures EntryReconciled(ids[k], t0.orders[ids[k]], t2.orders[ids[k]], lookups0, lookups2) {
      assert ids[k] != ids[i];
      SameSlice(t1, t2, ids[k]);
      EntryStays(ids[k], t0.orders[ids[k]], t1.orders[ids[k]], lookups0, lookups1, lookups2);
    }
    SameSlice(t0, t1, ids[i]);
    EntryNow(ids[i], t0.orders[ids[i]], t2.orders[ids[i]], r, lookups0, lookups1, lookups2);
  }

  lemma EntryNow(p: PlanId, o: OrderRow, o': OrderRow, r: EntryResult, before: seq<Asked>, middle: seq<Asked>, after: seq<Asked>)
    requires before <= middle <= after && !r.EntryRaised?
    requires exists row: Option<Row> :: AskedFor(middle, after, Entry(p), row) && ReconciledAs(o, o', row, r)
    ensures EntryReconciled(p, o, o', before, after)
  {
    hide ReconciledAs, AskedFor;
    var row: Option<Row> :| AskedFor(middle, after, Entry(p), row) && ReconciledAs(o, o', row, r);
    assert after[..|middle|] == middle && after[..|after|] == after;
  }

  lemma AskedAll(lookups0: seq<Asked>, lookups1: seq<Asked>, lookups2: seq<Asked>, ids: seq<PlanId>, i: nat)
    requires i < |ids| && lookups0 <= lookups1 <= lookups2
    requires forall k :: 0 <= k < i ==> AskedSince(lookups0, lookups1, Entry(ids[k]))
    requires AskedSince(lookups1, lookups2, Entry(ids[i]))
    ensures forall k :: 0 <= k <= i ==> AskedSince(lookups0, lookups2, Entry(ids[k]))
  {
    hide AskedSince;
    forall k | 0 <= k < i ensures AskedSince(lookups0, lookups2, Entry(ids[k])) {
      AskedEarlier(lookups0, lookups1, lookups2, Entry(ids[k]));
    }
    AskedLater(lookups0, lookups1, lookups2, Entry(ids[i]));
  }

  lemma RefusedSince(t: Tables, p: PlanId, before: seq<Asked>, middle: seq<Asked>, after: seq<Asked>)
    requires before <= middle && RowRefused(t, p, middle, after)
    ensures RowRefused(t, p, before, after)
  {
  }

  lemma NotYetSent(t: Tables, truth: Truth, sent: seq<OrderRef>, p: PlanId)
    requires Inv(t, truth, sent) && p in t.orders && t.orders[p].state.Approved?
    ensures Entry(p) !in truth && Entry(p) !in sent
  {
    assert PlanInv(p, SliceOf(t, p), truth);
  }

  lemma OrderHasPlan(t: Tables, truth: Truth, sent: seq<OrderRef>, p: PlanId)
    requires Inv(t, truth, sent)
    ensures SliceOf(t, p).order.Some? ==> SliceOf(t, p).plan.Some? && !SliceOf(t, p).plan.value.Planned?
  {
    assert PlanInv(p, SliceOf(t, p), truth);
  }

  lemma OrdersStay(t: Tables, t': Tables)
    requires Advances(t, t')
    ensures forall p :: p in t.orders ==> p in t'.orders
  {
    forall p | p in t.orders ensures p in t'.orders {
      assert Forward(SliceOf(t, p), SliceOf(t', p));
    }
  }

  lemma SliceParts(t: Tables, p: PlanId)
    ensures SliceOf(t, p).attempts == AttemptsOf(t, p) && SliceOf(t, p).fills == FillsOf(t, p)
    ensures SliceOf(t, p).position == if p in t.positions then Some(t.positions[p]) else None
    ensures PositionClosed(SliceOf(t, p)) <==> p in t.positions && t.positions[p].state.Closed?
  {
  }

  lemma StillOpenParts(t: Tables, p: PlanId)
    requires HasActivePosition(t, p)
    ensures !PositionClosed(SliceOf(t, p))
    ensures SliceOf(t, p).position == Some(t.positions[p])
  {
  }

  /** Marking an attempt as failed to reconcile claims nothing. */
  lemma FailureAllowed(t: Tables, p: PlanId, n: nat)
    requires 1 <= n <= |AttemptsOf(t, p)|
    ensures ClaimsNothing(SliceOf(t, p), AttemptsOf(t, p)[n - 1].(state := ReconciliationFailed), n)
  {
  }

  lemma CleanupAllowed(t: Tables, p: PlanId, n: nat, a: AttemptRow)
    requires PositionClosed(SliceOf(t, p)) && 1 <= n <= |AttemptsOf(t, p)|
    ensures ClaimsNothing(SliceOf(t, p), a, n)
  {
  }

  lemma NoFills(t: Tables, p: PlanId)
    requires FillsOf(t, p) == map[]
    ensures Total(FillsOf(t, p)) == 0
  {
  }

  lemma AttemptPatched(t: Tables, t': Tables, p: PlanId, n: nat, a: AttemptRow)
    requires 1 <= n <= |AttemptsOf(t, p)|
    requires SliceOf(t', p) == SliceOf(t, p).(attempts := AttemptsOf(t, p)[n - 1 := a])
    ensures AttemptsOf(t', p) == AttemptsOf(t, p)[n - 1 := a] && FillsOf(t', p) == FillsOf(t, p)
    ensures PositionClosed(SliceOf(t', p)) <==> PositionClosed(SliceOf(t, p))
  {
  }

  lemma ClosedParts(t: Tables, t': Tables, p: PlanId)
    requires p in t.positions && ClosedNow(SliceOf(t, p), SliceOf(t', p))
    ensures FillsOf(t', p) == FillsOf(t, p) && AttemptsOf(t', p) == AttemptsOf(t, p)
    ensures PositionClosed(SliceOf(t', p)) && SliceOf(t', p).position.value.quantity == t.positions[p].quantity
  {
  }

  lemma KeepsAttempt(t: Tables, t': Tables, p: PlanId, n: nat)
    requires Advances(t, t') && 1 <= n <= |AttemptsOf(t, p)|
    ensures n <= |AttemptsOf(t', p)| && AttemptsOf(t', p)[n - 1].requested == AttemptsOf(t, p)[n - 1].requested
  {
    assert Forward(SliceOf(t, p), SliceOf(t', p));
  }

  /** The attempt that was just opened asks for exactly what the ledger does not cover. */
  lemma OpenedFor(t: Tables, t': Tables, p: PlanId, remaining: nat)
    requires p in t.positions && remaining + Total(FillsOf(t, p)) == t.positions[p].quantity
    requires Opened(SliceOf(t, p), SliceOf(t', p))
    ensures |AttemptsOf(t', p)| == |AttemptsOf(t, p)| + 1
    ensures AttemptsOf(t', p)[|AttemptsOf(t, p)|] == NewAttempt(remaining)
  {
  }

  lemma KeepsRequest(t: Tables, t': Tables, p: PlanId)
    requires Advances(t, t') && p in t.orders
    ensures p in t'.orders && t'.orders[p].requested == t.orders[p].requested
    ensures t'.orders[p].lotNotional == t.orders[p].lotNotional
  {
    assert Forward(SliceOf(t, p), SliceOf(t', p));
  }

  lemma SlotsGrowByOne(t: Tables, t': Tables, p: PlanId)
    requires SameOthers(t, t', p) || t' == t
    ensures SlotPlans(t') <= SlotPlans(t) + {p}
  {
    forall q | q in SlotPlans(t') && q != p ensures q in SlotPlans(t) {
      assert SliceOf(t', q) == SliceOf(t, q);
      SameSlice(t, t', q);
    }
  }

  /** Steps that only advance never take a slot. */
  lemma AdvancesFreesSlots(t: Tables, t': Tables)
    requires Advances(t, t')
    ensures SlotPlans(t') <= SlotPlans(t)
  {
    forall q | q in SlotPlans(t') ensures q in SlotPlans(t) {
      assert Forward(SliceOf(t, q), SliceOf(t', q));
    }
  }

  lemma AdvancesReflexive(t: Tables)
    ensures Advances(t, t)
  {
  }
}
