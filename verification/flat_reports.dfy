/** When FLAT is true of the exchange, and not only of the tables. The agent sees its tables and the
    answers it was given; two runs with the same tables and the same events are alike to it. */
module FlatReports {
  import opened Wrappers
  import opened OrderStates
  import opened Exchanges
  import opened TradeTables
  import opened Protocol
  import opened ProtocolSteps
  import opened SliceEffects
  import opened ProtocolRuns

  /** A final word, or the full quantity. */
  predicate IsFinalAnswer(row: Row, requested: nat) {
    row.raw.RawCanceled? || row.raw.RawRejected? || row.raw.RawFilled? || row.filled >= requested
  }

  /** The event told the agent that order `r` can fill no more: a final answer about it, or a refusal
      code. */
  predicate Confirms(e: Event, r: OrderRef, requested: nat) {
    match e
    case EntryRow(p, row, _) => r == Entry(p) && IsFinalAnswer(row, requested)
    case ExitRow(p, n, row) => r == Exit(p, n) && IsFinalAnswer(row, requested)
    case RefusesEntry(p) => r == Entry(p)
    case RefusesExit(p, n) => r == Exit(p, n)
    case _ => false
  }

  /** Some event confirmed the end of order `r`; an order for nothing needs none. */
  ghost predicate Confirmed(events: seq<Event>, r: OrderRef, requested: nat) {
    requested == 0 || exists k :: 0 <= k < |events| && Confirms(events[k], r, requested)
  }

  /** What the tables say was asked for with order `r`. */
  function RequestedOf(t: Tables, r: OrderRef): nat {
    match r
    case Entry(p) => if p in t.orders then t.orders[p].requested else 0
    case Exit(p, n) => if 1 <= n <= |AttemptsOf(t, p)| then AttemptsOf(t, p)[n - 1].requested else 0
  }

  ghost predicate AllConfirmed(events: seq<Event>, w: World) {
    forall r :: r in w.sent ==> Confirmed(events, r, RequestedOf(w.tables, r))
  }

  /** No order was rejected after it had filled in part. */
  ghost predicate NoRejectedFill(t: Tables) {
    forall p :: p in t.orders && t.orders[p].state.Rejected? ==> t.orders[p].filled == 0
  }

  /** The agent cannot tell the runs apart. */
  ghost predicate Alike(run: seq<World>, other: seq<World>) {
    |run| == |other| && forall i :: 0 <= i < |run| ==> run[i].tables == other[i].tables
  }

  /** FLAT is true at the end of every run that is alike. */
  ghost predicate FlatIsSure(run: seq<World>, events: seq<Event>, limits: Limits) {
    forall other :: Run(other, events, limits) && Alike(run, other) ==> TrulyFlat(Last(other).tables, Last(other).truth)
  }

  // ----- what is known about an order stays true of it -----

  lemma RunLength(run: seq<World>, events: seq<Event>, limits: Limits)
    requires Run(run, events, limits)
    ensures |run| == |events| + 1
  {
  }

  lemma NextTruth(w: World, e: Event, w': World, r: OrderRef)
    requires Good(w) && Next(w, e, w') && r in w.truth
    ensures r in w'.truth && RemoteStep(w.truth[r], w'.truth[r])
  {
    hide TableEvent, SameOthers, TradesFollow, Sendable;
    match e
    case ExchangeMoves =>
    case Unanswered(_) =>
    case Sends(_, _) =>
    case _ =>
  }

  lemma {:induction false} TruthLasts(run: seq<World>, events: seq<Event>, limits: Limits, i: nat, j: nat, r: OrderRef)
    requires Run(run, events, limits) && i <= j < |run| && r in run[i].truth
    ensures r in run[j].truth && RemoteStep(run[i].truth[r], run[j].truth[r])
    decreases j
  {
    hide Inv, Next, Fits;
    RunKeeps(run, events, limits, i);
    if i == j {
      KnownOrder(run[i], r);
    } else {
      TruthLasts(run, events, limits, i, j - 1, r);
      RunKeeps(run, events, limits, j - 1);
      NextTruth(run[j - 1], events[j - 1], run[j], r);
    }
  }

  /** The exchange knows what was sent, and the tables know what was asked for. */
  lemma KnownOrder(w: World, r: OrderRef)
    requires Good(w)
    ensures r in w.truth <==> r in w.sent
    ensures r in w.truth ==> w.truth[r].filled <= w.truth[r].requested == RequestedOf(w.tables, r)
  {
    assert PlanInv(r.plan, SliceOf(w.tables, r.plan), w.truth);
  }

  /** The order row of an entry shows what the exchange filled. */
  predicate Shown(w: World, r: OrderRef) {
    r.Entry? ==> r.plan in w.tables.orders && w.tables.orders[r.plan].filled == FilledOf(w.truth, r)
  }

  lemma ConfirmsSettles(w: World, e: Event, w': World, r: OrderRef, requested: nat)
    requires Good(w) && Next(w, e, w') && Confirms(e, r, requested)
    requires r in w.truth ==> w.truth[r].requested == requested
    ensures r in w'.truth && w'.truth[r].Settled() && Shown(w', r)
  {
    hide SameOthers, TradesFollow, Inv;
    PlanPart(w, r.plan);
    assert w'.truth == w.truth;
    ConfirmsSettlesPlan(e, r.plan, SliceOf(w.tables, r.plan), SliceOf(w'.tables, r.plan), w.truth, r, requested);
  }

  lemma ConfirmsSettlesPlan(e: Event, p: PlanId, s: Slice, s': Slice, truth: Truth, r: OrderRef, requested: nat)
    requires WellFormed(truth) && PlanInv(p, s, truth) && TableEvent(e, p, s, s', truth)
    requires e.EntryRow? || e.ExitRow? || e.RefusesEntry? || e.RefusesExit?
    requires e.plan == p == r.plan && Confirms(e, r, requested)
    requires r in truth ==> truth[r].requested == requested
    ensures IsSettled(truth, r)
    ensures r.Entry? ==> s'.order.Some? && s'.order.value.filled == FilledOf(truth, r)
  {
  }

  /** Once settled and shown, for ever settled and shown. */
  lemma SettledLasts(run: seq<World>, events: seq<Event>, limits: Limits, i: nat, j: nat, r: OrderRef)
    requires Run(run, events, limits) && i <= j < |run|
    requires r in run[i].truth && run[i].truth[r].Settled() && Shown(run[i], r)
    ensures r in run[j].truth && run[j].truth[r].Settled() && run[j].truth[r].filled == run[i].truth[r].filled
    ensures Shown(run[j], r)
  {
    hide Inv, Run;
    TruthLasts(run, events, limits, i, j, r);
    RunKeeps(run, events, limits, i);
    RunKeeps(run, events, limits, j);
    KnownOrder(run[i], r);
    KnownOrder(run[j], r);
    RunEndures(run, events, limits, i, j);
    if r.Entry? {
      PlanPart(run[j], r.plan);
      assert Keeps(SliceOf(run[i].tables, r.plan), SliceOf(run[j].tables, r.plan));
    }
  }

  /** In a run, the end of a confirmed order has come, and its row shows all it filled. */
  lemma ConfirmedIsSettled(run: seq<World>, events: seq<Event>, limits: Limits, r: OrderRef)
    requires Run(run, events, limits)
    requires r in Last(run).sent && Confirmed(events, r, RequestedOf(Last(run).tables, r))
    ensures r in Last(run).truth && Last(run).truth[r].Settled() && Shown(Last(run), r)
  {
    hide Inv, Next, Fits;
    var last := |run| - 1;
    var requested := RequestedOf(run[last].tables, r);
    RunKeeps(run, events, limits, last);
    KnownOrder(run[last], r);
    if requested == 0 {
      NothingAsked(run[last], r);
    } else {
      var k :| 0 <= k < |events| && Confirms(events[k], r, requested);
      RunKeeps(run, events, limits, k);
      if r in run[k].truth {
        TruthLasts(run, events, limits, k, last, r);
      }
      ConfirmsSettles(run[k], events[k], run[k + 1], r, requested);
      SettledLasts(run, events, limits, k + 1, last, r);
    }
  }

  lemma NothingAsked(w: World, r: OrderRef)
    requires Good(w) && r in w.truth && w.truth[r].requested == 0 == w.truth[r].filled
    ensures w.truth[r].Settled() && Shown(w, r)
  {
    assert PlanInv(r.plan, SliceOf(w.tables, r.plan), w.truth);
  }

  // ----- confirmed: FLAT is true -----

  lemma {:induction false} SameSent(run: seq<World>, other: seq<World>, events: seq<Event>, limits: Limits, i: nat)
    requires Run(run, events, limits) && Run(other, events, limits) && i < |run| == |other|
    ensures run[i].sent == other[i].sent
    decreases i
  {
    hide TableEvent, SameOthers, TradesFollow, Sendable, Fits;
    if i > 0 {
      SameSent(run, other, events, limits, i - 1);
      assert Next(run[i - 1], events[i - 1], run[i]) && Next(other[i - 1], events[i - 1], other[i]);
    }
  }

  lemma ConfirmedIsFlat(run: seq<World>, events: seq<Event>, limits: Limits)
    requires Run(run, events, limits) && LooksFlat(Last(run).tables)
    requires AllConfirmed(events, Last(run)) && NoRejectedFill(Last(run).tables)
    ensures TrulyFlat(Last(run).tables, Last(run).truth)
  {
    hide Inv, Run, LooksFlat, TrulyFlat, Confirmed;
    RunLength(run, events, limits);
    var w := Last(run);
    RunKeeps(run, events, limits, |run| - 1);
    forall r | r in w.truth ensures w.truth[r].Settled() && Shown(w, r) {
      KnownOrder(w, r);
      ConfirmedIsSettled(run, events, limits, r);
    }
    forall p | p in w.tables.orders ensures w.tables.orders[p].filled == FilledOf(w.truth, Entry(p)) {
      PlanPart(w, p);
      assert Entry(p) in w.truth ==> Shown(w, Entry(p));
    }
    FlatAtExchangeIff(w.tables, w.truth, w.sent);
  }

  // ----- not confirmed: FLAT may be false -----

  /** The same order, not at its end: whatever it filled, one lot less than all at most, and not done. */
  function Unfinished(x: Remote): Remote {
    if x.requested == 0 then x
    else Remote(x.requested, if x.filled < x.requested then x.filled else x.requested - 1,
                if x.phase.Done? then Live else x.phase)
  }

  /** The same world, except that order `r` is not at its end. */
  function Doubted(w: World, r: OrderRef): World {
    World(w.tables, if r in w.truth then w.truth[r := Unfinished(w.truth[r])] else w.truth, w.sent)
  }

  lemma DoubtReports(truth: Truth, r: OrderRef, q: OrderRef, row: Row)
    requires Reports(truth, q, row) && r in truth && truth[r].requested > 0
    requires q == r ==> !IsFinalAnswer(row, truth[r].requested)
    ensures Reports(truth[r := Unfinished(truth[r])], q, row)
  {
  }

  lemma DoubtTableEvent(e: Event, p: PlanId, s: Slice, s': Slice, truth: Truth, r: OrderRef)
    requires TableEvent(e, p, s, s', truth) && r in truth && truth[r].requested > 0 && e.plan == p
    requires !Confirms(e, r, truth[r].requested)
    ensures TableEvent(e, p, s, s', truth[r := Unfinished(truth[r])])
  {
    hide Applied, Observed, Moved, Rewritten, Reports, Unfinished, IsFinalAnswer;
    match e {
      case EntryRow(_, row, _) => DoubtReports(truth, r, Entry(p), row);
      case ExitRow(_, n, row) => DoubtReports(truth, r, Exit(p, n), row);
      case _ =>
    }
  }

  lemma DoubtMoves(w: World, w': World, r: OrderRef)
    requires Next(w, ExchangeMoves, w')
    ensures Next(Doubted(w, r), ExchangeMoves, Doubted(w', r))
  {
  }

  lemma DoubtSends(w: World, w': World, q: OrderRef, quantity: nat, r: OrderRef)
    requires Next(w, Sends(q, quantity), w')
    requires q == r ==> quantity > 0
    ensures Next(Doubted(w, r), Sends(q, quantity), Doubted(w', r))
  {
    hide Sendable;
    if q == r {
      assert w'.truth[r := Unfinished(w'.truth[r])] == w'.truth;
    } else if r in w.truth {
      assert Doubted(w', r).truth == Doubted(w, r).truth[q := Remote(quantity, 0, InFlight)];
    }
  }

  lemma DoubtTables(w: World, e: Event, w': World, r: OrderRef)
    requires Next(w, e, w') && !e.ExchangeMoves? && !e.Unanswered? && !e.Sends?
    requires r in w.truth && w.truth[r].requested > 0 && !Confirms(e, r, w.truth[r].requested)
    ensures Next(Doubted(w, r), e, Doubted(w', r))
  {
    hide TableEvent, SameOthers, TradesFollow, Confirms, Unfinished;
    DoubtTableEvent(e, e.plan, SliceOf(w.tables, e.plan), SliceOf(w'.tables, e.plan), w.truth, r);
  }

  /** Whatever happens, short of an answer that confirms the end of `r`, could happen without it. */
  lemma DoubtNext(w: World, e: Event, w': World, r: OrderRef, requested: nat)
    requires Next(w, e, w') && !Confirms(e, r, requested) && requested > 0
    requires r in w.truth ==> w.truth[r].requested == requested
    requires r in w'.truth ==> w'.truth[r].requested == requested
    ensures Next(Doubted(w, r), e, Doubted(w', r))
  {
    hide Confirms, Unfinished, TableEvent, SameOthers, TradesFollow, Sendable, Evolves, WellFormed;
    match e {
      case ExchangeMoves => DoubtMoves(w, w', r);
      case Unanswered(_) =>
      case Sends(q, quantity) => DoubtSends(w, w', q, quantity, r);
      case _ =>
        if r in w.truth {
          DoubtTables(w, e, w', r);
        }
    }
  }

  /** A run in which the end of `r` was never confirmed has a twin, alike to the agent, in which `r` can
      still fill. */
  lemma Twin(run: seq<World>, events: seq<Event>, limits: Limits, r: OrderRef) returns (other: seq<World>)
    requires Run(run, events, limits) && r in Last(run).sent
    requires !Confirmed(events, r, RequestedOf(Last(run).tables, r))
    ensures Run(other, events, limits) && Alike(run, other)
    ensures r in Last(other).truth && !Last(other).truth[r].Settled()
  {
    hide Inv, Next, Fits, Confirms;
    var last := |run| - 1;
    var requested := RequestedOf(run[last].tables, r);
    RunKeeps(run, events, limits, last);
    KnownOrder(run[last], r);
    other := seq(|run|, i requires 0 <= i < |run| => Doubted(run[i], r));
    forall i | 0 <= i < |run| ensures r in run[i].truth ==> run[i].truth[r].requested == requested {
      if r in run[i].truth {
        TruthLasts(run, events, limits, i, last, r);
      }
    }
    forall i | 0 <= i < |events|
      ensures Next(other[i], events[i], other[i + 1])
      ensures events[i].Approves? ==> Fits(other[i].tables, events[i], limits)
    {
      DoubtNext(run[i], events[i], run[i + 1], r, requested);
    }
  }

  /** FLAT is sure, in this run and in every run the agent cannot tell from it, exactly when every order
      that was sent was confirmed to be at its end, and none was rejected after it had filled in part.
      The code asks for neither. */
  lemma FlatIsSureIff(run: seq<World>, events: seq<Event>, limits: Limits)
    requires Run(run, events, limits) && LooksFlat(Last(run).tables)
    ensures FlatIsSure(run, events, limits) <==> AllConfirmed(events, Last(run)) && NoRejectedFill(Last(run).tables)
  {
    hide Inv, Run, LooksFlat, TrulyFlat, Confirmed, Next;
    RunLength(run, events, limits);
    if AllConfirmed(events, Last(run)) && NoRejectedFill(Last(run).tables) {
      forall other | Run(other, events, limits) && Alike(run, other)
        ensures TrulyFlat(Last(other).tables, Last(other).truth)
      {
        SameSent(run, other, events, limits, |run| - 1);
        ConfirmedIsFlat(other, events, limits);
      }
    } else if !NoRejectedFill(Last(run).tables) {
      RunKeeps(run, events, limits, |run| - 1);
      FlatAtExchangeIff(Last(run).tables, Last(run).truth, Last(run).sent);
      assert Alike(run, run) && !UpToDate(Last(run).tables, Last(run).truth);
    } else {
      var r :| r in Last(run).sent && !Confirmed(events, r, RequestedOf(Last(run).tables, r));
      var other := Twin(run, events, limits, r);
      NotAtRest(Last(other).tables, Last(other).truth, r);
    }
  }

  lemma NotAtRest(t: Tables, truth: Truth, r: OrderRef)
    requires r in truth && !truth[r].Settled()
    ensures !TrulyFlat(t, truth)
  {
  }

  /** A FLAT that is true stays true: in every continuation the orders it spoke of fill nothing more,
      and the positions they bought stay CLOSED, as they were. */
  lemma TrueFlatLasts(run: seq<World>, events: seq<Event>, limits: Limits, i: nat, j: nat)
    requires Run(run, events, limits) && i <= j < |run|
    requires TrulyFlat(run[i].tables, run[i].truth)
    ensures forall r :: r in run[i].truth ==>
      r in run[j].truth && run[j].truth[r].Settled() && run[j].truth[r].filled == run[i].truth[r].filled
    ensures forall p :: Entry(p) in run[i].truth ==> BoughtIsClosed(run[j].tables, run[j].truth, p)
  {
    hide Inv, Next, Fits, Endures;
    RunKeeps(run, events, limits, i);
    forall r | r in run[i].truth
      ensures r in run[j].truth && run[j].truth[r].Settled() && run[j].truth[r].filled == run[i].truth[r].filled
    {
      TruthLasts(run, events, limits, i, j, r);
      KnownOrder(run[i], r);
    }
    forall p | Entry(p) in run[i].truth ensures BoughtIsClosed(run[j].tables, run[j].truth, p) {
      assert BoughtIsClosed(run[i].tables, run[i].truth, p);
      EveryRunIsSafe(run, events, limits, i, p);
      EveryRunIsSafe(run, events, limits, j, p);
    }
  }
}
