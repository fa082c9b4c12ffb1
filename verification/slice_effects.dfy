/** What each write does to the slice of its plan, and that it does nothing to any other. */
module SliceEffects {
  import opened Wrappers
  import opened OrderStates
  import opened Exchanges
  import opened TradeTables
  import opened Protocol

  /** Only plan `p` changed. */
  ghost predicate SameOthers(t: Tables, t': Tables, p: PlanId) {
    forall q :: q != p ==> SliceOf(t', q) == SliceOf(t, q)
  }

  lemma SameOthersTransitive(t: Tables, t1: Tables, t2: Tables, p: PlanId)
    requires SameOthers(t, t1, p) && SameOthers(t1, t2, p)
    ensures SameOthers(t, t2, p)
  {
    forall q | q != p ensures SliceOf(t2, q) == SliceOf(t, q) {
      assert SliceOf(t1, q) == SliceOf(t, q);
    }
  }

  /** What the tables say about a plan can be read off its slice. */
  lemma SameSlice(t: Tables, t': Tables, p: PlanId)
    requires SliceOf(t, p) == SliceOf(t', p)
    ensures HasActivePosition(t, p) <==> HasActivePosition(t', p)
    ensures p in t.positions <==> p in t'.positions
    ensures p in t.positions ==> t'.positions[p] == t.positions[p]
    ensures p in t.orders <==> p in t'.orders
    ensures p in t.orders ==> t'.orders[p] == t.orders[p]
    ensures AttemptsOf(t, p) == AttemptsOf(t', p) && FillsOf(t, p) == FillsOf(t', p)
  {
  }

  lemma TransitionEffect(t: Tables, p: PlanId, state: OrderState, f: Patch)
    requires p in t.orders && Allowed(t.orders[p].state, state)
    ensures var t' := TransitionOrder(t, p, state, f).tables;
            var s, s' := SliceOf(t, p), SliceOf(t', p);
            && SameOthers(t, t', p)
            && s' == s.(order := Some(PatchOrder(t.orders[p], state, f)), plan := s'.plan)
            && s'.plan == (if s.plan.Some? then Some(state) else None)
  {
  }

  lemma PositionEffect(t: Tables, p: PlanId, quantity: nat, state: OrderState, v: Verdict)
    ensures var t' := UpsertPosition(t, p, quantity, state, v);
            var s := SliceOf(t, p);
            && SameOthers(t, t', p)
            && SliceOf(t', p) == s.(position := Some(PositionRow(quantity, state, v.protected, v.ids,
                 if s.position.Some? then s.position.value.exitFilled else 0)))
  {
  }

  lemma EntryFillEffect(t: Tables, p: PlanId, price: real, quantity: nat)
    ensures forall q :: SliceOf(RecordEntryFill(t, p, price, quantity), q) == SliceOf(t, q)
  {
  }

  lemma AttemptEffect(t: Tables, p: PlanId, n: nat, a: AttemptRow)
    requires 1 <= n <= |AttemptsOf(t, p)|
    ensures var t' := PutAttempt(t, p, n, a);
            && SameOthers(t, t', p)
            && SliceOf(t', p) == SliceOf(t, p).(attempts := AttemptsOf(t, p)[n - 1 := a])
  {
  }

  lemma NewAttemptEffect(t: Tables, p: PlanId, requested: nat)
    ensures var t' := CreateAttempt(t, p, requested);
            && SameOthers(t, t', p)
            && SliceOf(t', p) == SliceOf(t, p).(attempts :=
                 AttemptsOf(t, p) + [AttemptRow(requested, 0, Prepared, None, false, false, map[])])
  {
  }

  lemma FillEffect(t: Tables, p: PlanId, k: FillKey, f: FillRow)
    ensures var t' := UpsertFill(t, p, k, f);
            SameOthers(t, t', p) && SliceOf(t', p) == SliceOf(t, p).(fills := FillsOf(t, p)[k := f])
  {
  }

  lemma FillsEffect(t: Tables, p: PlanId, fills: seq<ProtectiveFill>)
    ensures var t' := RecordFills(t, p, fills);
            SameOthers(t, t', p) && SliceOf(t', p) == SliceOf(t, p).(fills := IgnoreInsert(FillsOf(t, p), fills))
  {
  }

  lemma PartialEffect(t: Tables, p: PlanId, filled: nat)
    requires HasActivePosition(t, p)
    ensures var t' := MarkPartialExit(t, p, filled);
            var s := SliceOf(t, p);
            && SameOthers(t, t', p)
            && SliceOf(t', p) == s.(position :=
                 Some(t.positions[p].(state := ExitPartiallyFilled, exitFilled := filled)))
  {
  }

  lemma CloseEffect(t: Tables, p: PlanId, exitFilled: nat)
    requires CloseTrade(t, p, exitFilled).Written?
    ensures var t' := CloseTrade(t, p, exitFilled).tables;
            && SameOthers(t, t', p)
            && SliceOf(t', p) == SliceOf(t, p).(
                 position := Some(t.positions[p].(state := Closed, exitFilled := exitFilled)),
                 order := Some(t.orders[p].(state := Closed)))
  {
  }

  lemma ApproveEffect(t: Tables, p: PlanId, requested: nat, lotNotional: Notional)
    requires ApproveAndCreate(t, p, requested, lotNotional).Written?
    ensures var t' := ApproveAndCreate(t, p, requested, lotNotional).tables;
            && SameOthers(t, t', p)
            && SliceOf(t, p).plan == Some(Planned) && SliceOf(t, p).order.None?
            && SliceOf(t', p) == SliceOf(t, p).(plan := Some(Approved),
                 order := Some(OrderRow(requested, 0, Approved, None, lotNotional)))
  {
  }

  /** The tables with `s` as what they say about plan `p`, and a trade row for it or none. */
  function WithSlice(t: Tables, p: PlanId, s: Slice, traded: bool): Tables {
    Tables(
      if s.plan.Some? then t.plans[p := PlanRow(s.plan.value, 0)] else t.plans - {p},
      if s.order.Some? then t.orders[p := s.order.value] else t.orders - {p},
      if s.position.Some? then t.positions[p := s.position.value] else t.positions - {p},
      if s.attempts != [] then t.attempts[p := s.attempts] else t.attempts - {p},
      if s.fills != map[] then t.fills[p := s.fills] else t.fills - {p},
      if traded then t.trades[p := TradeRow(0, 0.0, false)] else t.trades - {p})
  }

  lemma WithSliceEffect(t: Tables, p: PlanId, s: Slice, traded: bool)
    ensures SliceOf(WithSlice(t, p, s, traded), p) == s && SameOthers(t, WithSlice(t, p, s, traded), p)
    ensures WithSlice(t, p, s, traded).trades.Keys == (if traded then t.trades.Keys + {p} else t.trades.Keys - {p})
  {
  }
}
