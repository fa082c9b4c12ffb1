/** The order lifecycle: the thirteen states, the two state groups that the store
    counts, and the table of transitions that `transition_order` accepts. */
module OrderStates {

  datatype OrderState =
    | Planned
    | Approved
    | Submitted
    | SubmissionUnknown
    | CancelRequested
    | Open
    | PartiallyFilled
    | Filled
    | PositionUnprotected
    | ExitPartiallyFilled
    | Cancelled
    | Rejected
    | Closed

  /** States in which an entry order still occupies a position slot. */
  predicate IsActive(s: OrderState) {
    s.Approved? || s.Submitted? || s.SubmissionUnknown? || s.CancelRequested? || s.Open? ||
    s.PartiallyFilled? || s.Filled? || s.PositionUnprotected?
  }

  /** States in which a position row counts as inventory the agent still manages. */
  predicate IsManaged(s: OrderState) {
    s.PartiallyFilled? || s.Filled? || s.PositionUnprotected? || s.ExitPartiallyFilled?
  }

  /** States in which the unfilled part of an entry order reserves notional. */
  predicate IsReserving(s: OrderState) {
    s.Approved? || s.Submitted? || s.SubmissionUnknown? || s.CancelRequested? || s.Open? ||
    s.PartiallyFilled?
  }

  /** Order states from which a position may be closed by `close_trade`. */
  predicate IsClosable(s: OrderState) {
    s.PartiallyFilled? || s.Filled? || s.PositionUnprotected? || s.Cancelled?
  }

  /** The transition table. Planned and ExitPartiallyFilled have no row in it. */
  predicate Allowed(from: OrderState, to: OrderState) {
    match from
    case Approved => to.Submitted? || to.Rejected?
    case Submitted =>
      to.Submitted? || to.SubmissionUnknown? || to.Open? || to.PartiallyFilled? || to.Filled? ||
      to.Rejected? || to.CancelRequested? || to.Cancelled?
    case SubmissionUnknown =>
      to.SubmissionUnknown? || to.Submitted? || to.Open? || to.PartiallyFilled? || to.Filled? ||
      to.Rejected? || to.CancelRequested? || to.Cancelled?
    case Open =>
      to.Open? || to.PartiallyFilled? || to.Filled? || to.CancelRequested? || to.Cancelled? || to.Rejected?
    case PartiallyFilled =>
      to.PartiallyFilled? || to.Filled? || to.CancelRequested? || to.Cancelled? || to.PositionUnprotected?
    case CancelRequested =>
      to.CancelRequested? || to.Submitted? || to.Open? || to.PartiallyFilled? || to.Filled? ||
      to.PositionUnprotected? || to.Cancelled? || to.Rejected?
    case Filled => to.Filled? || to.PositionUnprotected? || to.Closed?
    case PositionUnprotected => to.PositionUnprotected? || to.Filled? || to.Closed?
    case Cancelled => to.Cancelled?
    case Rejected => to.Rejected?
    case Closed => to.Closed?
    case Planned => false
    case ExitPartiallyFilled => false
  }

  /** The table read by its targets: from where each state can be reached. */
  lemma ReachedFrom(from: OrderState)
    ensures Allowed(from, Submitted) <==>
      from in {Approved, Submitted, SubmissionUnknown, CancelRequested}
    ensures Allowed(from, SubmissionUnknown) <==> from in {Submitted, SubmissionUnknown}
    ensures Allowed(from, Open) <==> from in {Submitted, SubmissionUnknown, Open, CancelRequested}
    ensures Allowed(from, PartiallyFilled) <==> from in {Submitted, SubmissionUnknown, Open, PartiallyFilled, CancelRequested}
    ensures Allowed(from, Filled) <==>
      from in {Submitted, SubmissionUnknown, Open, PartiallyFilled, CancelRequested, Filled, PositionUnprotected}
    ensures Allowed(from, PositionUnprotected) <==> from in {PartiallyFilled, CancelRequested, Filled, PositionUnprotected}
    ensures Allowed(from, CancelRequested) <==> from in {Submitted, SubmissionUnknown, Open, PartiallyFilled, CancelRequested}
    ensures Allowed(from, Cancelled) <==>
      from in {Submitted, SubmissionUnknown, Open, PartiallyFilled, CancelRequested, Cancelled}
    ensures Allowed(from, Rejected) <==> from in {Approved, Submitted, SubmissionUnknown, Open, CancelRequested, Rejected}
    ensures Allowed(from, Closed) <==> from in {Filled, PositionUnprotected, Closed}
    ensures !Allowed(from, Planned) && !Allowed(from, Approved) && !Allowed(from, ExitPartiallyFilled)
  {
  }

  /** An order is active exactly while the table lets it become something else, and it reserves notional exactly while
      it can still be cancelled or rejected. A position is managed in the two states that an order leaves it in
      when it filled, in a partial one, and after a partial exit. */
  lemma GroupsMean(s: OrderState)
    ensures IsActive(s) <==> exists to :: to != s && Allowed(s, to)
    ensures IsReserving(s) <==> exists to :: to != s && Allowed(s, to) && (to == Cancelled || to == Rejected)
    ensures IsManaged(s) <==> s in {PartiallyFilled, Filled, PositionUnprotected, ExitPartiallyFilled}
    ensures IsClosable(s) <==> s == Cancelled || (IsManaged(s) && s != ExitPartiallyFilled)
  {
    if IsReserving(s) {
      assert Allowed(s, Cancelled) || Allowed(s, Rejected);
    }
    if s == Filled {
      assert Allowed(s, PositionUnprotected);
    }
    if s == PositionUnprotected {
      assert Allowed(s, Filled);
    }
  }

  /** A history of one order in which every step is in the table. */
  ghost predicate LegalHistory(h: seq<OrderState>) {
    forall i :: 0 <= i < |h| - 1 ==> Allowed(h[i], h[i + 1])
  }

  /** Over any legal history, an order that has left the reserving states never reserves
      notional again, and an order that reached Cancelled, Rejected or Closed never moves. */
  lemma {:induction false} SettledHistory(h: seq<OrderState>, i: nat, j: nat)
    requires LegalHistory(h)
    requires i <= j < |h|
    ensures !IsReserving(h[i]) ==> !IsReserving(h[j])
    ensures h[i].Cancelled? || h[i].Rejected? || h[i].Closed? ==> h[j] == h[i]
    decreases j - i
  {
    if i < j {
      assert Allowed(h[i], h[i + 1]);
      SettledHistory(h, i + 1, j);
    }
  }
}
