/** The exchange, as an adversary with a ground truth.

    An order on the exchange is identified by what the agent derives its client id from: the plan
    for an entry, the plan and the attempt number for a flatten exit. Between any two
    calls the exchange may fill, cancel or reject any order; it keeps only these promises: the
    filled quantity of an order never falls and never exceeds what was requested, an order that is
    done stays as it is, and a row it returns shows the order as it is at that moment.
    Replies may be lost, lookups may fail, and a submission may be in flight for any time. */
module Exchanges {
  import opened Wrappers
  import opened OrderStates

  type PlanId = string

  datatype OrderRef = Entry(plan: PlanId) | Exit(plan: PlanId, attempt: nat)

  datatype Phase = InFlight | Live | Done

  datatype Remote = Remote(requested: nat, filled: nat, phase: Phase) {
    /** Nothing more can be filled. */
    predicate Settled() {
      phase.Done? || filled == requested
    }
  }

  type Truth = map<OrderRef, Remote>

  ghost predicate WellFormed(truth: Truth) {
    forall r :: r in truth ==> truth[r].filled <= truth[r].requested
  }

  /** What the exchange has filled for `r`; an order it never received has filled nothing. */
  function FilledOf(truth: Truth, r: OrderRef): nat {
    if r in truth then truth[r].filled else 0
  }

  predicate RemoteStep(a: Remote, b: Remote) {
    && b.requested == a.requested
    && a.filled <= b.filled <= b.requested
    && (a.phase.Done? ==> b == a)
    && (a.phase.Live? ==> !b.phase.InFlight?)
  }

  predicate Evolves(t: Truth, u: Truth) {
    && t.Keys == u.Keys
    && forall r | r in t :: RemoteStep(t[r], u[r])
  }

  /** The words of an order row, grouped as `_map_state` groups them. */
  datatype RawState = RawCanceled | RawRejected | RawFilled | RawPartiallyFilled | RawLive | RawOther

  datatype Row = Row(raw: RawState, filled: nat, average: Option<real>, orderId: Option<string>, time: int)

  /** `_map_state`: cancel and reject words win, then a full quantity, then a partial one. */
  function MapState(row: Row, requested: nat): OrderState {
    if row.raw.RawCanceled? then Cancelled
    else if row.raw.RawRejected? then Rejected
    else if row.raw.RawFilled? || (requested > 0 && row.filled >= requested) then Filled
    else if row.raw.RawPartiallyFilled? || 0 < row.filled < requested then PartiallyFilled
    else if row.raw.RawLive? then Open
    else Submitted
  }

  predicate IsTerminal(s: OrderState) {
    s.Filled? || s.Cancelled? || s.Rejected?
  }

  /** The state of a row, by what it takes to be in it. */
  lemma RowMeans(row: Row, requested: nat)
    ensures var s, over := MapState(row, requested), row.raw == RawCanceled || row.raw == RawRejected;
      var full := row.raw == RawFilled || (requested > 0 && row.filled >= requested);
      var part := row.raw == RawPartiallyFilled || 0 < row.filled < requested;
      && (s == Cancelled <==> row.raw == RawCanceled)
      && (s == Rejected <==> row.raw == RawRejected)
      && (s == Filled <==> !over && full)
      && (s == PartiallyFilled <==> !over && !full && part)
      && (s == Open <==> !full && !part && row.raw == RawLive)
      && (s == Submitted <==> !over && !full && !part && row.raw != RawLive)
      && (IsTerminal(s) <==> over || full)
    ensures forall s :: IsTerminal(s) <==> s in {Filled, Cancelled, Rejected}
  {
  }

  /** `row` shows order `r` as it is: its exact quantity, and a final word only when it is done. */
  predicate Reports(truth: Truth, r: OrderRef, row: Row) {
    && r in truth
    && !truth[r].phase.InFlight?
    && row.filled == truth[r].filled
    && (row.raw.RawCanceled? || row.raw.RawRejected? || row.raw.RawFilled? ==> truth[r].phase.Done?)
  }

  datatype SubmitReply =
    | PreRejected                        // refused locally, or by an explicit rejection: nothing will fill
    | Uncertain                          // the request may have reached the exchange
    | OtherError                         // any other exception
    | RefusedCode                        // a reply with a non-zero sCode
    | Accepted(orderId: Option<string>)
    | ProcessDied                        // the agent stopped; nothing after the call ran

  /** The verdict of the protection check and the protective order ids it found. */
  datatype Verdict = Verdict(protected: bool, ids: seq<string>)

  /** One fill of a protective order as the fill history reports it. */
  datatype ProtectiveFill = ProtectiveFill(key: string, quantity: nat, price: real, timestamp: int)

  /** One answered question about an order. */
  datatype Asked = Asked(order: OrderRef, row: Option<Row>)

  /** One pass over the fill history of a plan's protective orders. */
  datatype FillRead = FillRead(plan: PlanId, fills: seq<ProtectiveFill>, complete: bool)

  /** `truth` is what the exchange knows; the other fields log what it was asked. `sent` are the client ids
      that were handed to the executor; one that was refused before it left stands in `truth` as an order
      that is done and filled nothing. */
  class Exchange {
    var truth: Truth
    var sent: seq<OrderRef>
    var replies: seq<(OrderRef, SubmitReply)>        // what the executor said of each
    var cancels: seq<OrderRef>
    var accepted: seq<OrderRef>                      // the cancels it took
    var protectionCancels: seq<(PlanId, string)>
    var protectionAccepted: seq<(PlanId, string)>    // the protective cancels it took
    var lookups: seq<Asked>
    var fillReads: seq<FillRead>
    var verdicts: seq<(PlanId, Verdict)>

    constructor ()
      ensures truth == map[] && sent == [] && replies == [] && cancels == [] && accepted == []
      ensures protectionCancels == [] && protectionAccepted == [] && lookups == [] && fillReads == [] && verdicts == []
    {
      truth, sent, cancels, protectionCancels, lookups, fillReads := map[], [], [], [], [], [];
      accepted, protectionAccepted, verdicts, replies := [], [], [], [];
    }

    method Evolve()
      requires WellFormed(truth)
      modifies this`truth
      ensures WellFormed(truth) && Evolves(old(truth), truth)
    {
      var next: Truth := *;
      if Evolves(truth, next) {
        truth := next;
      }
    }

    /** Ask for one order by id; None when the lookup fails or finds nothing. */
    method Lookup(r: OrderRef) returns (row: Option<Row>)
      requires WellFormed(truth)
      modifies this`truth, this`lookups
      ensures lookups == old(lookups) + [Asked(r, row)]
      ensures WellFormed(truth) && Evolves(old(truth), truth)
      ensures row.Some? ==> Reports(truth, r, row.value)
    {
      Evolve();
      row := *;
      if row.Some? && !Reports(truth, r, row.value) {
        row := None;
      }
      lookups := lookups + [Asked(r, row)];
    }

    /** Send one order. The precondition is the rule that no order is ever sent twice. */
    method Execute(r: OrderRef, quantity: nat) returns (reply: SubmitReply)
      requires WellFormed(truth)
      requires r !in truth && r !in sent
      modifies this`truth, this`sent, this`replies
      ensures WellFormed(truth)
      ensures sent == old(sent) + [r]
      ensures replies == old(replies) + [(r, reply)]
      ensures Evolves(old(truth)[r := Remote(quantity, 0, InFlight)], truth)
      ensures reply.RefusedCode? || reply.PreRejected? ==> truth[r] == Remote(quantity, 0, Done)
    {
      sent := sent + [r];
      reply := *;
      replies := replies + [(r, reply)];
      truth := truth[r := Remote(quantity, 0, if reply.RefusedCode? || reply.PreRejected? then Done else InFlight)];
      Evolve();
    }

    /** Ask for a cancel; `ok` says the exchange took the request, nothing more. */
    method CancelOrder(r: OrderRef) returns (ok: bool)
      requires WellFormed(truth)
      modifies this`truth, this`cancels, this`accepted
      ensures WellFormed(truth) && Evolves(old(truth), truth)
      ensures cancels == old(cancels) + [r]
      ensures accepted == if ok then old(accepted) + [r] else old(accepted)
    {
      Evolve();
      cancels := cancels + [r];
      ok := *;
      if ok {
        accepted := accepted + [r];
      }
    }

    method CancelProtection(p: PlanId, id: string) returns (ok: bool)
      requires WellFormed(truth)
      modifies this`truth, this`protectionCancels, this`protectionAccepted
      ensures WellFormed(truth) && Evolves(old(truth), truth)
      ensures protectionCancels == old(protectionCancels) + [(p, id)]
      ensures protectionAccepted == if ok then old(protectionAccepted) + [(p, id)] else old(protectionAccepted)
    {
      Evolve();
      protectionCancels := protectionCancels + [(p, id)];
      ok := *;
      if ok {
        protectionAccepted := protectionAccepted + [(p, id)];
      }
    }

    /** The state of a plan's protective orders: an input to the protocol. */
    method ProtectionVerdict(p: PlanId) returns (v: Verdict)
      modifies this`verdicts
      ensures verdicts == old(verdicts) + [(p, v)]
    {
      v := *;
      verdicts := verdicts + [(p, v)];
    }

    /** The protective fills that one history pass found, and whether the pass was complete. */
    method ExitFills(p: PlanId) returns (fills: seq<ProtectiveFill>, complete: bool)
      modifies this`fillReads
      ensures fillReads == old(fillReads) + [FillRead(p, fills, complete)]
    {
      fills, complete := *, *;
      fillReads := fillReads + [FillRead(p, fills, complete)];
    }
  }

  lemma EvolvesTransitive(t: Truth, u: Truth, v: Truth)
    requires Evolves(t, u) && Evolves(u, v)
    ensures Evolves(t, v)
  {
    forall r | r in t ensures RemoteStep(t[r], v[r]) {
      assert r in u && RemoteStep(t[r], u[r]) && RemoteStep(u[r], v[r]);
    }
  }
}
