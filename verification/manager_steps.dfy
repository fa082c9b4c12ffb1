/** Every write of the order manager is an event of the protocol: it keeps the invariant, goes forward, and
    can be added to the run. */
module ManagerSteps {
  import opened Wrappers
  import opened OrderStates
  import opened Exchanges
  import opened TradeTables
  import opened Protocol
  import opened ProtocolSteps
  import opened SliceEffects
  import opened ProtocolRuns
  import opened ManagerRules
  import opened FlattenRules

  lemma EventStep(t: Tables, t': Tables, truth: Truth, sent: seq<OrderRef>, e: Event, p: PlanId)
    requires !e.ExchangeMoves? && !e.Unanswered? && !e.Sends? && !e.Approves? && e.plan == p
    requires Inv(t, truth, sent)
    requires SameOthers(t, t', p) && TradesFollow(t, e, p, t')
    requires TableEvent(e, p, SliceOf(t, p), SliceOf(t', p), truth)
    ensures Next(World(t, truth, sent), e, World(t', truth, sent))
    ensures Inv(t', truth, sent) && Advances(t, t')
  {
    hide Inv, TableEvent, TradesFollow, Forward, SliceOf;
    TableStepKeeps(World(t, truth, sent), e, World(t', truth, sent));
  }

  /** An event that writes no trade row and needs none. */
  lemma QuietStep(t: Tables, t': Tables, truth: Truth, sent: seq<OrderRef>, e: Event, p: PlanId)
    requires !e.ExchangeMoves? && !e.Unanswered? && !e.Sends? && !e.Approves? && !e.EntryRow? && !e.Closes?
    requires Inv(t, truth, sent) && e.plan == p && t'.trades == t.trades
    requires SameOthers(t, t', p) && TableEvent(e, p, SliceOf(t, p), SliceOf(t', p), truth)
    ensures Next(World(t, truth, sent), e, World(t', truth, sent))
    ensures Inv(t', truth, sent) && Advances(t, t')
  {
    hide Inv, TableEvent, SliceOf, SameOthers, Forward;
    EventStep(t, t', truth, sent, e, p);
  }

  lemma EvolveStep(t: Tables, truth: Truth, truth': Truth, sent: seq<OrderRef>)
    requires Inv(t, truth, sent) && WellFormed(truth') && Evolves(truth, truth')
    ensures Inv(t, truth', sent)
    ensures Next(World(t, truth, sent), ExchangeMoves, World(t, truth', sent))
  {
    hide Inv;
    EvolveKeeps(t, truth, truth', sent);
  }

  lemma SendStep(t: Tables, truth: Truth, sent: seq<OrderRef>, r: OrderRef, quantity: nat)
    requires Inv(t, truth, sent) && r !in truth && Sendable(t, r, quantity)
    ensures var truth' := truth[r := Remote(quantity, 0, InFlight)];
      && Inv(t, truth', sent + [r])
      && Next(World(t, truth, sent), Sends(r, quantity), World(t, truth', sent + [r]))
  {
    hide Inv;
    SendKeeps(t, truth, sent, r, quantity);
  }

  /** A transition without a row; a refused one is a rejection that the exchange confirmed. */
  lemma MovedStep(t: Tables, t': Tables, truth: Truth, sent: seq<OrderRef>, p: PlanId, state: OrderState,
                  orderId: Option<Option<string>>, refused: bool)
    requires Inv(t, truth, sent)
    requires p in t.orders ==> MoveStarts(t.orders[p].state, state)
    requires refused && p in t.orders ==> state.Rejected? && IsRefused(truth, Entry(p), t.orders[p].requested)
    requires var w := TransitionOrder(t, p, state, Patch(None, orderId));
             t' == if w.Written? then w.tables else t
    ensures Inv(t', truth, sent) && Advances(t, t') && SameOthers(t, t', p)
    ensures TransitionOrder(t, p, state, Patch(None, orderId)).Written? ==>
      && Moved(SliceOf(t, p), SliceOf(t', p), state)
      && Next(World(t, truth, sent), if refused then RefusesEntry(p) else OrderMoves(p, state), World(t', truth, sent))
  {
    hide Inv, Forward;
    AdvancesReflexive(t);
    SameOthersReflexive(t, p);
    if TransitionOrder(t, p, state, Patch(None, orderId)).Written? {
      OrderHasPlan(t, truth, sent, p);
      TransitionEffect(t, p, state, Patch(None, orderId));
      QuietStep(t, t', truth, sent, if refused then RefusesEntry(p) else OrderMoves(p, state), p);
    }
  }

  lemma AppliedStep(t: Tables, t': Tables, truth: Truth, sent: seq<OrderRef>, p: PlanId, row: Row, v: Verdict)
    requires Inv(t, truth, sent) && SameOthers(t, t', p)
    requires Reports(truth, Entry(p), row) && Applied(SliceOf(t, p), SliceOf(t', p), row, v)
    requires TradesFollow(t, EntryRow(p, row, v), p, t')
    ensures Inv(t', truth, sent) && Advances(t, t')
    ensures Next(World(t, truth, sent), EntryRow(p, row, v), World(t', truth, sent))
  {
    hide Inv, Forward, Applied, TradesFollow, SliceOf, Reports;
    EventStep(t, t', truth, sent, EntryRow(p, row, v), p);
  }

  lemma LedgeredStep(t: Tables, t': Tables, truth: Truth, sent: seq<OrderRef>, p: PlanId, found: seq<ProtectiveFill>)
    requires Inv(t, truth, sent) && p in t.positions && t.positions[p].protectiveIds != []
    requires t' == RecordFills(t, p, found)
    ensures Inv(t', truth, sent) && Advances(t, t') && SameOthers(t, t', p)
    ensures Ledgered(SliceOf(t, p), SliceOf(t', p), found)
    ensures Next(World(t, truth, sent), LedgersFills(p, found), World(t', truth, sent))
  {
    hide Inv, Forward;
    FillsEffect(t, p, found);
    QuietStep(t, t', truth, sent, LedgersFills(p, found), p);
  }

  lemma ObservedStep(t: Tables, t': Tables, truth: Truth, sent: seq<OrderRef>, p: PlanId, n: nat, row: Row)
    requires Inv(t, truth, sent) && SameOthers(t, t', p) && t'.trades == t.trades
    requires Reports(truth, Exit(p, n), row) && Observed(SliceOf(t, p), SliceOf(t', p), n, row)
    ensures Inv(t', truth, sent) && Advances(t, t')
    ensures Next(World(t, truth, sent), ExitRow(p, n, row), World(t', truth, sent))
  {
    hide Inv, Forward, Observed, Reports, SliceOf;
    QuietStep(t, t', truth, sent, ExitRow(p, n, row), p);
  }

  /** An attempt is rewritten: it claims nothing new, or the exchange refused it. */
  lemma PatchedStep(t: Tables, t': Tables, truth: Truth, sent: seq<OrderRef>, p: PlanId, n: nat, a: AttemptRow,
                    refused: bool)
    requires Inv(t, truth, sent) && 1 <= n <= |AttemptsOf(t, p)|
    requires a.requested == AttemptsOf(t, p)[n - 1].requested && t' == PutAttempt(t, p, n, a)
    requires
      if refused then
        IsRefusal(AttemptsOf(t, p)[n - 1], a) && IsRefused(truth, Exit(p, n), AttemptsOf(t, p)[n - 1].requested)
      else ClaimsNothing(SliceOf(t, p), a, n)
    ensures Inv(t', truth, sent) && Advances(t, t') && SameOthers(t, t', p)
    ensures SliceOf(t', p) == SliceOf(t, p).(attempts := AttemptsOf(t, p)[n - 1 := a])
    ensures Next(World(t, truth, sent), if refused then RefusesExit(p, n) else RewritesAttempt(p, n), World(t', truth, sent))
  {
    hide Inv, Forward, ClaimsNothing, IsRefusal, IsRefused;
    AttemptEffect(t, p, n, a);
    SliceParts(t, p);
    QuietStep(t, t', truth, sent, if refused then RefusesExit(p, n) else RewritesAttempt(p, n), p);
  }

  lemma PartialStep(t: Tables, t': Tables, truth: Truth, sent: seq<OrderRef>, p: PlanId, quantity: nat)
    requires Inv(t, truth, sent) && HasActivePosition(t, p) && t' == MarkPartialExit(t, p, quantity)
    ensures Inv(t', truth, sent) && Advances(t, t') && SameOthers(t, t', p)
    ensures PartiallyExited(SliceOf(t, p), SliceOf(t', p))
    ensures Next(World(t, truth, sent), MarksPartial(p), World(t', truth, sent))
  {
    hide Inv, Forward;
    PartialEffect(t, p, quantity);
    QuietStep(t, t', truth, sent, MarksPartial(p), p);
  }

  lemma ClosedStep(t: Tables, t': Tables, truth: Truth, sent: seq<OrderRef>, p: PlanId, quantity: nat)
    requires Inv(t, truth, sent) && HasActivePosition(t, p) && t.positions[p].quantity <= Total(FillsOf(t, p))
    requires CloseTrade(t, p, quantity) == Written(t')
    ensures Inv(t', truth, sent) && Advances(t, t') && SameOthers(t, t', p)
    ensures ClosedNow(SliceOf(t, p), SliceOf(t', p))
    ensures Next(World(t, truth, sent), Closes(p), World(t', truth, sent))
  {
    hide Inv, Forward;
    CloseEffect(t, p, quantity);
    EventStep(t, t', truth, sent, Closes(p), p);
  }

  lemma OpenedStep(t: Tables, t': Tables, truth: Truth, sent: seq<OrderRef>, p: PlanId, remaining: nat)
    requires Inv(t, truth, sent) && HasActivePosition(t, p)
    requires remaining + Total(FillsOf(t, p)) == t.positions[p].quantity && remaining > 0
    requires AttemptsOf(t, p) != [] ==> Reopens(AttemptsOf(t, p)[|AttemptsOf(t, p)| - 1])
    requires t' == CreateAttempt(t, p, remaining)
    ensures Inv(t', truth, sent) && Advances(t, t') && SameOthers(t, t', p)
    ensures Opened(SliceOf(t, p), SliceOf(t', p))
    ensures Exit(p, |AttemptsOf(t', p)|) !in truth && Exit(p, |AttemptsOf(t', p)|) !in sent
    ensures Next(World(t, truth, sent), OpensAttempt(p), World(t', truth, sent))
  {
    hide Forward;
    assert PlanInv(p, SliceOf(t, p), truth);
    NewAttemptEffect(t, p, remaining);
    hide Inv;
    QuietStep(t, t', truth, sent, OpensAttempt(p), p);
  }

  lemma CreatedStep(t: Tables, t': Tables, truth: Truth, sent: seq<OrderRef>, p: PlanId, requested: nat,
                    lotNotional: Notional)
    requires Inv(t, truth, sent)
    requires ApproveAndCreate(t, p, requested, lotNotional) == Written(t')
    ensures Inv(t', truth, sent) && SameOthers(t, t', p) && Endures(t, t')
    ensures Next(World(t, truth, sent), Approves(p, requested, lotNotional), World(t', truth, sent))
  {
    hide Inv, Keeps;
    ApproveEffect(t, p, requested, lotNotional);
    TableStepKeeps(World(t, truth, sent), Approves(p, requested, lotNotional), World(t', truth, sent));
  }

  lemma CancelsAdvance(t: Tables, t': Tables, log: seq<(PlanId, string)>)
    requires CancelsAfterClose(t, log) && Advances(t, t')
    ensures CancelsAfterClose(t', log)
  {
    hide Forward, Keeps;
    AdvancesEndures(t, t');
    CancelsStay(t, t', log);
  }
}
