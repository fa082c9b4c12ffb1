/** Building paths step by step, from what the tables say about one plan before and after. */
module RunBuilder {
  import opened Wrappers
  import opened OrderStates
  import opened Exchanges
  import opened TradeTables
  import opened Protocol
  import opened ProtocolSteps
  import opened SliceEffects
  import opened ProtocolRuns

  const EMPTY_SLICE := Slice(None, None, None, [], map[])

  const LIMITS := Limits(1, 2.0)

  /** A world in which only plan `p` exists. */
  function Alone(p: PlanId, s: Slice, truth: Truth, sent: seq<OrderRef>, traded: bool): World {
    World(WithSlice(EMPTY_TABLES, p, s, traded), truth, sent)
  }

  /** One event of the tables, given by what they say about its plan before and after. */
  lemma TableStep(t: Tables, t': Tables, truth: Truth, sent: seq<OrderRef>, e: Event, p: PlanId)
    requires !e.ExchangeMoves? && !e.Unanswered? && !e.Sends? && e.plan == p
    requires SameOthers(t, t', p) && TradesFollow(t, e, p, t')
    requires TableEvent(e, p, SliceOf(t, p), SliceOf(t', p), truth)
    ensures Next(World(t, truth, sent), e, World(t', truth, sent))
  {
  }

  /** The same for a plan that is alone. */
  lemma AloneStep(p: PlanId, s: Slice, s': Slice, truth: Truth, sent: seq<OrderRef>, traded: bool, e: Event)
    requires !e.ExchangeMoves? && !e.Unanswered? && !e.Sends? && e.plan == p
    requires TableEvent(e, p, s, s', truth)
    requires e.Closes? ==> traded
    ensures Next(Alone(p, s, truth, sent, traded), e, Alone(p, s', truth, sent, traded || RecordsTrade(e, s)))
  {
    hide TableEvent, SliceOf, RecordsTrade;
    var t, t' := WithSlice(EMPTY_TABLES, p, s, traded), WithSlice(EMPTY_TABLES, p, s', traded || RecordsTrade(e, s));
    WithSliceEffect(EMPTY_TABLES, p, s, traded);
    WithSliceEffect(EMPTY_TABLES, p, s', traded || RecordsTrade(e, s));
    forall q | q != p ensures SliceOf(t', q) == SliceOf(t, q) {
      assert SliceOf(t, q) == SliceOf(EMPTY_TABLES, q);
    }
    TableStep(t, t', truth, sent, e, p);
  }

  /** What the tables say about a plan whose entry for two lots was just sent. */
  function Submitted2(): Slice {
    Slice(Some(Submitted), Some(OrderRow(2, 0, Submitted, None, 1.0)), None, [], map[])
  }

  lemma EmptyAlone(p: PlanId)
    ensures Alone(p, EMPTY_SLICE, map[], [], false) == INITIAL_WORLD
  {
  }

  /** A run in which one plan is saved and approved for two lots, its order is sent, and the exchange
      does with it what it likes. */
  lemma SubmittedRun(p: PlanId, remote: Remote) returns (run: seq<World>, events: seq<Event>)
    requires remote.requested == 2 && remote.filled <= 2
    ensures Run(run, events, LIMITS)
    ensures Last(run) == Alone(p, Submitted2(), map[Entry(p) := remote], [Entry(p)], false)
  {
    hide Path, Next, Alone;
    var planned := EMPTY_SLICE.(plan := Some(Planned));
    var approved := Slice(Some(Approved), Some(OrderRow(2, 0, Approved, None, 1.0)), None, [], map[]);
    EmptyAlone(p);
    Stay(INITIAL_WORLD, LIMITS);
    run, events := [INITIAL_WORLD], [];
    AloneStep(p, EMPTY_SLICE, planned, map[], [], false, PlanChanges(p));
    run, events := Grow(run, events, LIMITS, PlanChanges(p), Alone(p, planned, map[], [], false));
    AloneStep(p, planned, approved, map[], [], false, Approves(p, 2, 1.0));
    ApprovalFits(p, planned);
    run, events := Grow(run, events, LIMITS, Approves(p, 2, 1.0), Alone(p, approved, map[], [], false));
    AloneStep(p, approved, Submitted2(), map[], [], false, OrderMoves(p, Submitted));
    run, events := Grow(run, events, LIMITS, OrderMoves(p, Submitted), Alone(p, Submitted2(), map[], [], false));
    SendStep(p);
    run, events := Grow(run, events, LIMITS, Sends(Entry(p), 2),
                        Alone(p, Submitted2(), map[Entry(p) := Remote(2, 0, InFlight)], [Entry(p)], false));
    MoveStep(p, Submitted2(), map[Entry(p) := Remote(2, 0, InFlight)], map[Entry(p) := remote], [Entry(p)], false);
    run, events := Grow(run, events, LIMITS, ExchangeMoves,
                        Alone(p, Submitted2(), map[Entry(p) := remote], [Entry(p)], false));
  }

  lemma ApprovalFits(p: PlanId, planned: Slice)
    requires planned == EMPTY_SLICE.(plan := Some(Planned))
    ensures Fits(Alone(p, planned, map[], [], false).tables, Approves(p, 2, 1.0), LIMITS)
  {
    var t := Alone(p, planned, map[], [], false).tables;
    assert SlotPlans(t) == {} && t.orders == map[];
  }

  lemma SendStep(p: PlanId)
    ensures Next(Alone(p, Submitted2(), map[], [], false), Sends(Entry(p), 2),
                 Alone(p, Submitted2(), map[Entry(p) := Remote(2, 0, InFlight)], [Entry(p)], false))
  {
  }

  lemma MoveStep(p: PlanId, s: Slice, truth: Truth, truth': Truth, sent: seq<OrderRef>, traded: bool)
    requires WellFormed(truth') && Evolves(truth, truth')
    ensures Next(Alone(p, s, truth, sent, traded), ExchangeMoves, Alone(p, s, truth', sent, traded))
  {
  }

  lemma AloneSlice(p: PlanId, s: Slice, truth: Truth, sent: seq<OrderRef>, traded: bool)
    ensures SliceOf(Alone(p, s, truth, sent, traded).tables, p) == s
    ensures forall q :: q != p ==> SliceOf(Alone(p, s, truth, sent, traded).tables, q) == EMPTY_SLICE
  {
    WithSliceEffect(EMPTY_TABLES, p, s, traded);
  }

  /** What the tables say after the first of the two lots was filled. */
  function BoughtOne(): Slice {
    Slice(Some(PartiallyFilled), Some(OrderRow(2, 1, PartiallyFilled, None, 1.0)),
          Some(PositionRow(1, PartiallyFilled, true, ["tp"], 0)), [], map[])
  }

  function LiveEntry(p: PlanId, filled: nat): Truth {
    map[Entry(p) := Remote(2, filled, Live)]
  }

  /** A run in which the entry for two lots has bought one and is still live. */
  lemma BoughtOneRun(p: PlanId) returns (run: seq<World>, events: seq<Event>)
    ensures Run(run, events, LIMITS)
    ensures Last(run) == Alone(p, BoughtOne(), LiveEntry(p, 1), [Entry(p)], true)
  {
    hide Path, Next, Alone;
    run, events := SubmittedRun(p, Remote(2, 1, Live));
    var e := EntryRow(p, Row(RawPartiallyFilled, 1, Some(1.0), None, 0), Verdict(true, ["tp"]));
    AloneStep(p, Submitted2(), BoughtOne(), LiveEntry(p, 1), [Entry(p)], false, e);
    run, events := Grow(run, events, LIMITS, e, Alone(p, BoughtOne(), LiveEntry(p, 1), [Entry(p)], true));
  }

  lemma AloneParts(p: PlanId, s: Slice, truth: Truth, sent: seq<OrderRef>, traded: bool)
    ensures var w := Alone(p, s, truth, sent, traded);
      && w.truth == truth && w.sent == sent
      && (p in w.tables.orders <==> s.order.Some?) && (s.order.Some? ==> w.tables.orders[p] == s.order.value)
      && (p in w.tables.positions <==> s.position.Some?)
      && (s.position.Some? ==> w.tables.positions[p] == s.position.value)
      && AttemptsOf(w.tables, p) == s.attempts && FillsOf(w.tables, p) == s.fills
  {
    AloneSlice(p, s, truth, sent, traded);
  }

  lemma OpenStep(p: PlanId, s: Slice, s': Slice, truth: Truth)
    requires s.position.Some? && IsManaged(s.position.value.state) && s.attempts == [] && s.fills == map[]
    requires s.position.value.quantity > 0 && s' == s.(attempts := [NewAttempt(s.position.value.quantity)])
    ensures Next(Alone(p, s, truth, [Entry(p)], true), OpensAttempt(p), Alone(p, s', truth, [Entry(p)], true))
  {
    hide Next, Alone;
    assert Total(s.fills) == 0;
    AloneStep(p, s, s', truth, [Entry(p)], true, OpensAttempt(p));
  }

  lemma ExitSendStep(p: PlanId, s: Slice, quantity: nat, truth: Truth)
    requires s.attempts == [NewAttempt(quantity)] && Exit(p, 1) !in truth
    ensures Next(Alone(p, s, truth, [Entry(p)], true), Sends(Exit(p, 1), quantity),
                 Alone(p, s, truth[Exit(p, 1) := Remote(quantity, 0, InFlight)], [Entry(p), Exit(p, 1)], true))
  {
    AloneParts(p, s, truth, [Entry(p)], true);
  }

  /** What the tables say when both lots were bought. */
  function BoughtTwo(attempts: seq<AttemptRow>, fills: map<FillKey, FillRow>): Slice {
    Slice(Some(Filled), Some(OrderRow(2, 2, Filled, None, 1.0)),
          Some(PositionRow(2, Filled, true, ["tp"], 0)), attempts, fills)
  }

  function TwoBought(p: PlanId, exit: Remote): Truth {
    map[Entry(p) := Remote(2, 2, Done), Exit(p, 1) := exit]
  }

  /** A run in which both lots are bought and a flatten attempt for both is sent. */
  lemma TwoBoughtRun(p: PlanId, exit: Remote) returns (run: seq<World>, events: seq<Event>)
    requires exit.requested == 2 && exit.filled <= 2
    ensures Run(run, events, LIMITS)
    ensures Last(run) == Alone(p, BoughtTwo([NewAttempt(2)], map[]), TwoBought(p, exit),
                               [Entry(p), Exit(p, 1)], true)
  {
    hide Path, Next, Alone;
    var truth := map[Entry(p) := Remote(2, 2, Done)];
    run, events := SubmittedRun(p, Remote(2, 2, Done));
    var e := EntryRow(p, Row(RawFilled, 2, Some(1.0), None, 0), Verdict(true, ["tp"]));
    AloneStep(p, Submitted2(), BoughtTwo([], map[]), truth, [Entry(p)], false, e);
    run, events := Grow(run, events, LIMITS, e, Alone(p, BoughtTwo([], map[]), truth, [Entry(p)], true));
    var s := BoughtTwo([NewAttempt(2)], map[]);
    OpenStep(p, BoughtTwo([], map[]), s, truth);
    run, events := Grow(run, events, LIMITS, OpensAttempt(p), Alone(p, s, truth, [Entry(p)], true));
    ExitSendStep(p, s, 2, truth);
    var sent, inFlight := [Entry(p), Exit(p, 1)], truth[Exit(p, 1) := Remote(2, 0, InFlight)];
    run, events := Grow(run, events, LIMITS, Sends(Exit(p, 1), 2), Alone(p, s, inFlight, sent, true));
    MoveStep(p, s, inFlight, TwoBought(p, exit), sent, true);
    run, events := Grow(run, events, LIMITS, ExchangeMoves, Alone(p, s, TwoBought(p, exit), sent, true));
  }
}
