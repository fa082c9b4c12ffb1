/** The entry path under true interleaving: any number of submitters, rejections, expiry sweeps,
    local blocks, reconciliations and restarts, each store call one atomic step on its own.

    A submitter's program counter says which of its calls comes next: the duplicate check, the
    approval transaction, the move to SUBMITTED, the executor, the write of the outcome. */
module EntryRace {
  import opened Wrappers
  import opened OrderStates
  import opened Exchanges
  import opened TradeTables

  type ThreadId = nat

  datatype Pc =
    | Checked(plan: PlanId)     // is_duplicate said no
    | ApprovedBy(plan: PlanId)  // this thread's approval transaction succeeded
    | Ready(plan: PlanId)       // this thread moved the order to SUBMITTED
    | Executed(plan: PlanId)    // the executor ran

  datatype Race = Race(
    tables: Tables,
    threads: map<ThreadId, Pc>,
    executions: seq<PlanId>,
    rejected: set<PlanId>,      // plans that reject_plan or the expiry sweep moved to REJECTED
    blockedInTime: set<PlanId>, // orders a local block moved from APPROVED to REJECTED
    blockedLate: set<PlanId>)   // orders a local block moved from a later state to REJECTED

  const INITIAL_RACE := Race(EMPTY_TABLES, map[], [], {}, {}, {})

  datatype Step =
    | Save(plan: PlanId, expiresAt: int)
    | Reject(plan: PlanId)
    | Check(thread: ThreadId, plan: PlanId)
    | Approve(thread: ThreadId, requested: nat, lotNotional: Notional)
    | MarkSubmitted(thread: ThreadId)
    | Execute(thread: ThreadId)
    | Finish(thread: ThreadId, state: OrderState)
    | BlockLocal(plan: PlanId)                      // the second half of a block: it once read APPROVED
    | Reconcile(plan: PlanId, state: OrderState)    // any transition a reconcile or cancel makes
    | CloseOrder(plan: PlanId, exitFilled: nat)
    | Restart

  function Without(threads: map<ThreadId, Pc>, t: ThreadId): map<ThreadId, Pc> {
    threads - {t}
  }

  /** One atomic step. A step whose store call is refused, or that is not the thread's next call,
      ends that thread or changes nothing. */
  function Apply(r: Race, step: Step): Race {
    match step
    case Save(p, e) => r.(tables := SavePlan(r.tables, p, e))
    case Reject(p) =>
      if p in r.tables.plans && r.tables.plans[p].status.Planned?
      then r.(tables := RejectPlan(r.tables, p), rejected := r.rejected + {p}) else r
    case Check(t, p) =>
      if t !in r.threads && p !in r.tables.orders then r.(threads := r.threads[t := Checked(p)]) else r
    case Approve(t, requested, lotNotional) =>
      if t in r.threads && r.threads[t].Checked? then
        var w := ApproveAndCreate(r.tables, r.threads[t].plan, requested, lotNotional);
        if w.Written? then r.(tables := w.tables, threads := r.threads[t := ApprovedBy(r.threads[t].plan)])
        else r.(threads := Without(r.threads, t))
      else r
    case MarkSubmitted(t) =>
      if t in r.threads && r.threads[t].ApprovedBy? then
        var w := TransitionOrder(r.tables, r.threads[t].plan, Submitted, NO_PATCH);
        if w.Written? then r.(tables := w.tables, threads := r.threads[t := Ready(r.threads[t].plan)])
        else r.(threads := Without(r.threads, t))
      else r
    case Execute(t) =>
      if t in r.threads && r.threads[t].Ready?
      then r.(executions := r.executions + [r.threads[t].plan], threads := r.threads[t := Executed(r.threads[t].plan)])
      else r
    case Finish(t, s) =>
      if t in r.threads && r.threads[t].Executed? then
        var w := TransitionOrder(r.tables, r.threads[t].plan, s, NO_PATCH);
        r.(tables := if w.Written? then w.tables else r.tables, threads := Without(r.threads, t))
      else r
    case BlockLocal(p) =>
      var w := TransitionOrder(r.tables, p, Rejected, NO_PATCH);
      if w.Raised? then r
      else if r.tables.orders[p].state.Approved?
      then r.(tables := w.tables, blockedInTime := r.blockedInTime + {p})
      else r.(tables := w.tables, blockedLate := r.blockedLate + {p})
    case Reconcile(p, s) =>
      // a reconcile works on active orders that were sent; it never moves one out of APPROVED
      var w := TransitionOrder(r.tables, p, s, NO_PATCH);
      if w.Raised? || r.tables.orders[p].state.Approved? then r else r.(tables := w.tables)
    case CloseOrder(p, q) =>
      var w := CloseTrade(r.tables, p, q);
      if w.Raised? then r else r.(tables := w.tables)
    case Restart => r.(threads := map[])
  }

  /** When the calls of a submission go through: the check exactly without an order, the approval exactly for a PLANNED
      plan without an order, and the mark exactly from the states that SUBMITTED can follow. The executor runs exactly
      in a thread that got through all three. */
  lemma GoesThrough(r: Race, t: ThreadId, p: PlanId, requested: nat, lotNotional: Notional)
    ensures var r' := Apply(r, Check(t, p));
      if t in r.threads || p in r.tables.orders then r' == r else r' == r.(threads := r.threads[t := Checked(p)])
    ensures t in r.threads && r.threads[t] == Checked(p) ==>
      var r' := Apply(r, Approve(t, requested, lotNotional));
      if p in r.tables.plans && r.tables.plans[p].status == Planned && p !in r.tables.orders then
        && r'.threads == r.threads[t := ApprovedBy(p)]
        && r'.tables.orders == r.tables.orders[p := OrderRow(requested, 0, Approved, None, lotNotional)]
      else r' == r.(threads := r.threads - {t})
    ensures t in r.threads && r.threads[t] == ApprovedBy(p) ==>
      var r' := Apply(r, MarkSubmitted(t));
      if p in r.tables.orders && r.tables.orders[p].state in {Approved, Submitted, SubmissionUnknown, CancelRequested} then
        && r'.threads == r.threads[t := Ready(p)]
        && r'.tables.orders == r.tables.orders[p := r.tables.orders[p].(state := Submitted)]
      else r' == r.(threads := r.threads - {t})
    ensures Apply(r, Execute(t)).executions ==
      r.executions + if t in r.threads && r.threads[t].Ready? then [r.threads[t].plan] else []
  {
  }

  function Play(r: Race, steps: seq<Step>): Race
    decreases |steps|
  {
    if steps == [] then r else Apply(Play(r, steps[..|steps| - 1]), steps[|steps| - 1])
  }

  function Occurrences(s: seq<PlanId>, p: PlanId): nat {
    multiset(s)[p]
  }

  /** The order of `p` is owned by thread `t`: that thread's approval made it and it has not executed. */
  predicate Owns(r: Race, t: ThreadId, p: PlanId) {
    t in r.threads && r.threads[t].plan == p && (r.threads[t].ApprovedBy? || r.threads[t].Ready?)
  }

  ghost predicate PlanRaceInv(r: Race, p: PlanId) {
    && (p in r.tables.orders ==> p in r.tables.plans && !r.tables.plans[p].status.Planned?)
    && (p in r.rejected ==> p !in r.tables.orders && p in r.tables.plans && !r.tables.plans[p].status.Planned?)
    && (p in r.blockedInTime ==> p in r.tables.orders && r.tables.orders[p].state.Rejected?)
    && (p in r.blockedLate ==> p in r.tables.orders)
    && Occurrences(r.executions, p) <= 1
    && (Occurrences(r.executions, p) > 0 ==>
          p in r.tables.orders && !r.tables.orders[p].state.Approved? && p !in r.blockedInTime)
    && (forall t :: Owns(r, t, p) ==>
          && p in r.tables.orders && Occurrences(r.executions, p) == 0
          && (r.threads[t].ApprovedBy? ==> r.tables.orders[p].state.Approved? || p in r.blockedInTime)
          && (r.threads[t].Ready? ==> !r.tables.orders[p].state.Approved? && p !in r.blockedInTime))
    && (forall t, u :: Owns(r, t, p) && Owns(r, u, p) ==> t == u)
    && (forall t :: t in r.threads && r.threads[t] == Executed(p) ==> Occurrences(r.executions, p) > 0)
  }

  lemma ThreadSteps(r: Race, step: Step, p: PlanId)
    requires PlanRaceInv(r, p)
    requires step.Check? || step.Execute? || step.Restart?
    ensures PlanRaceInv(Apply(r, step), p)
  {
    var r' := Apply(r, step);
    if step.Execute? && step.thread in r.threads && r.threads[step.thread].Ready? {
      var t := step.thread;
      assert Owns(r, t, r.threads[t].plan);
      assert multiset(r'.executions) == multiset(r.executions) + multiset{r.threads[t].plan};
      forall u | Owns(r', u, p) ensures Owns(r, u, p) && u != t {}
    } else {
      forall u | Owns(r', u, p) ensures Owns(r, u, p) {}
    }
  }

  lemma ApproveStep(r: Race, step: Step, p: PlanId)
    requires PlanRaceInv(r, p) && step.Approve?
    ensures PlanRaceInv(Apply(r, step), p)
  {
    var r' := Apply(r, step);
    forall u | Owns(r', u, p) && u != step.thread ensures Owns(r, u, p) {}
  }

  lemma MarkStep(r: Race, step: Step, p: PlanId)
    requires PlanRaceInv(r, p) && step.MarkSubmitted?
    ensures PlanRaceInv(Apply(r, step), p)
  {
    var r' := Apply(r, step);
    if step.thread in r.threads && r.threads[step.thread].ApprovedBy? {
      assert Owns(r, step.thread, r.threads[step.thread].plan);
    }
    forall u | Owns(r', u, p) ensures Owns(r, u, p) {}
  }

  lemma TableSteps(r: Race, step: Step, p: PlanId)
    requires PlanRaceInv(r, p)
    requires step.Save? || step.Reject? || step.CloseOrder?
    ensures PlanRaceInv(Apply(r, step), p)
  {
    forall u | Owns(Apply(r, step), u, p) ensures Owns(r, u, p) {}
  }

  lemma FinishStep(r: Race, step: Step, p: PlanId)
    requires PlanRaceInv(r, p) && step.Finish?
    ensures PlanRaceInv(Apply(r, step), p)
  {
    forall u | Owns(Apply(r, step), u, p) ensures Owns(r, u, p) {}
  }

  lemma BlockStep(r: Race, step: Step, p: PlanId)
    requires PlanRaceInv(r, p) && step.BlockLocal?
    ensures PlanRaceInv(Apply(r, step), p)
  {
    forall u | Owns(Apply(r, step), u, p) ensures Owns(r, u, p) {}
  }

  lemma ReconcileStep(r: Race, step: Step, p: PlanId)
    requires PlanRaceInv(r, p) && step.Reconcile?
    ensures PlanRaceInv(Apply(r, step), p)
  {
    forall u | Owns(Apply(r, step), u, p) ensures Owns(r, u, p) {}
  }

  lemma OnePlanChanges(r: Race, step: Step, p: PlanId)
    requires PlanRaceInv(r, p)
    ensures PlanRaceInv(Apply(r, step), p)
  {
    hide PlanRaceInv, Apply;
    if step.Check? || step.Execute? || step.Restart? {
      ThreadSteps(r, step, p);
    } else if step.Approve? {
      ApproveStep(r, step, p);
    } else if step.MarkSubmitted? {
      MarkStep(r, step, p);
    } else if step.Save? || step.Reject? || step.CloseOrder? {
      TableSteps(r, step, p);
    } else if step.Finish? {
      FinishStep(r, step, p);
    } else if step.BlockLocal? {
      BlockStep(r, step, p);
    } else {
      ReconcileStep(r, step, p);
    }
  }

  lemma {:induction false} EveryRace(steps: seq<Step>, p: PlanId)
    ensures PlanRaceInv(Play(INITIAL_RACE, steps), p)
    decreases |steps|
  {
    if steps != [] {
      EveryRace(steps[..|steps| - 1], p);
      OnePlanChanges(Play(INITIAL_RACE, steps[..|steps| - 1]), steps[|steps| - 1], p);
    }
  }

  /** At most once, under every interleaving, and never for a plan whose rejection or expiry won,
      nor for an order that a local block caught while it was still APPROVED. */
  lemma AtMostOnce(steps: seq<Step>, p: PlanId)
    ensures var r := Play(INITIAL_RACE, steps);
            && Occurrences(r.executions, p) <= 1
            && (p in r.rejected || p in r.blockedInTime ==> Occurrences(r.executions, p) == 0)
  {
    EveryRace(steps, p);
  }

  /** Once a rejection or a timely block has won, no continuation of the run executes the plan. */
  lemma {:induction false} DecidedForGood(steps: seq<Step>, more: seq<Step>, p: PlanId)
    requires var r := Play(INITIAL_RACE, steps); p in r.rejected || p in r.blockedInTime
    ensures Occurrences(Play(INITIAL_RACE, steps + more).executions, p) == 0
    decreases |more|
  {
    Monotone(steps, more, p);
    AtMostOnce(steps + more, p);
  }

  lemma {:induction false} Monotone(steps: seq<Step>, more: seq<Step>, p: PlanId)
    ensures var a, b := Play(INITIAL_RACE, steps), Play(INITIAL_RACE, steps + more);
            (p in a.rejected ==> p in b.rejected) && (p in a.blockedInTime ==> p in b.blockedInTime)
    decreases |more|
  {
    hide Apply;
    if more == [] {
      assert steps + more == steps;
    } else {
      Monotone(steps, more[..|more| - 1], p);
      assert (steps + more)[..|steps + more| - 1] == steps + more[..|more| - 1];
      StepKeepsWinners(Play(INITIAL_RACE, steps + more[..|more| - 1]), more[|more| - 1], p);
    }
  }

  lemma StepKeepsWinners(r: Race, step: Step, p: PlanId)
    ensures p in r.rejected ==> p in Apply(r, step).rejected
    ensures p in r.blockedInTime ==> p in Apply(r, step).blockedInTime
  {
  }

  /** What decides the race between a submitter and a local block that goes through: the block stops the
      executor exactly when the order is still APPROVED at the moment of its write, or a block before it
      was in time. The source reads that state earlier and does not pass it to the write as the expected
      state. */
  lemma BlockDecidesIff(r: Race, t: ThreadId, p: PlanId)
    requires PlanRaceInv(r, p) && Owns(r, t, p)
    requires TransitionOrder(r.tables, p, Rejected, NO_PATCH).Written?
    ensures var after := Apply(r, BlockLocal(p));
            var later := Apply(Apply(after, MarkSubmitted(t)), Execute(t));
            && (Occurrences(later.executions, p) == 0 <==> r.tables.orders[p].state.Approved? || p in r.blockedInTime)
            && (Occurrences(later.executions, p) > 0 ==> p in later.blockedLate)
  {
    var after := Apply(r, BlockLocal(p));
    assert after.tables.orders[p].state.Rejected?;
    var marked := Apply(after, MarkSubmitted(t));
    var later := Apply(marked, Execute(t));
    if r.threads[t].Ready? {
      assert later.executions == r.executions + [p];
    }
  }

  /** One submitter alone gets as far as the executor. */
  lemma ReadyToExecute(p: PlanId) returns (steps: seq<Step>)
    ensures var r := Play(INITIAL_RACE, steps);
            && Owns(r, 1, p) && r.threads[1].Ready? && p in r.tables.orders && r.tables.orders[p].state.Submitted?
  {
    steps := [];
    steps := OneMore(steps, Save(p, 10));
    assert var r := Play(INITIAL_RACE, steps);
           p in r.tables.plans && r.tables.plans[p].status.Planned? && p !in r.tables.orders && 1 !in r.threads;
    steps := OneMore(steps, Check(1, p));
    assert var r := Play(INITIAL_RACE, steps); 1 in r.threads && r.threads[1] == Checked(p) && p !in r.tables.orders;
    steps := OneMore(steps, Approve(1, 3, 1.0));
    assert var r := Play(INITIAL_RACE, steps);
           1 in r.threads && r.threads[1] == ApprovedBy(p) && p in r.tables.orders && r.tables.orders[p].state.Approved?;
    steps := OneMore(steps, MarkSubmitted(1));
  }

  lemma OneMore(steps: seq<Step>, step: Step) returns (longer: seq<Step>)
    ensures longer == steps + [step]
    ensures Play(INITIAL_RACE, longer) == Apply(Play(INITIAL_RACE, steps), step)
  {
    longer := steps + [step];
    PlayAppend(steps, step);
  }

  /** A block that read APPROVED before the submitter moved on, and wrote after: it reports the
      entry as blocked, and the order is executed all the same. */
  lemma LateBlockDoesNotStop(p: PlanId) returns (steps: seq<Step>)
    ensures var r := Play(INITIAL_RACE, steps);
            p in r.blockedLate && Occurrences(r.executions, p) == 1
  {
    hide Apply, PlanRaceInv;
    var before := ReadyToExecute(p);
    var r := Play(INITIAL_RACE, before);
    EveryRace(before, p);
    BlockDecidesIff(r, 1, p);
    var a := before + [BlockLocal(p)];
    var b := a + [MarkSubmitted(1)];
    steps := b + [Execute(1)];
    PlayAppend(before, BlockLocal(p));
    PlayAppend(a, MarkSubmitted(1));
    PlayAppend(b, Execute(1));
    AtMostOnce(steps, p);
  }

  lemma PlayAppend(steps: seq<Step>, step: Step)
    ensures Play(INITIAL_RACE, steps + [step]) == Apply(Play(INITIAL_RACE, steps), step)
  {
    hide Apply;
    assert (steps + [step])[..|steps|] == steps;
  }
}
