// The platform's order and offer rows, and the service calls that move an order.
module Orders {
  import opened Results
  import opened OrderMachine

  type UserId = nat
  type OfferId = nat
  type TokenId = nat

  datatype Side = Buy | Sell

  // The four ways a conditional transfer can be waiting.
  datatype Branch = Immediate | OnConfirm | ProofWindow | OnDate

  // What a call did on the chain.
  datatype Action = NoAction | BindAction | ReleaseAction | RefundAction

  // `side` is the taker's. `receipt` is who uploaded the latest receipt. `lastFrom` is the state the
  // latest event on record moved the order out of, and `evidence` holds the chain actions on record.
  // `counted` is kept by the model alone: whether the offer's stock is still short of the amount.
  datatype OrderRow = OrderRow(
    kind: Kind, owner: UserId, counterparty: UserId, asset: TokenId, amount: nat,
    main: Branch, side: Side, offer: OfferId,
    state: OrderState, terminal: Terminal, fundingVia: bool, receipt: Option<UserId>, lastFrom: OrderState,
    evidence: set<Action>, counted: bool)

  function StandingOf(o: OrderRow): Standing {
    Standing(o.kind, o.state, o.terminal)
  }

  predicate NeedsFunding(o: OrderRow) {
    if o.kind == ConditionalTransfer then o.state == Fund else o.side == Sell && o.state == S1
  }

  // Who is paid when the order completes: a taker who sells pays the maker, a taker who buys is paid.
  predicate PaysPeer(o: OrderRow) {
    o.kind == ConditionalTransfer || o.side == Sell
  }

  // What a call writes beside the new state, in the same database transaction.
  datatype Extra = Nothing | ReturnReservation | AddReceipt(uploader: UserId) | SetFunding

  // One call of `advanceAuth`.
  datatype Advance = Advance(ev: OrderEvent, actor: Actor, dst: OrderState, extra: Extra, score: nat)

  // ── everything the service ever asks of an order ──

  function ConfirmCall(): Advance { Advance(EvConfirm, Owner, Releasing, Nothing, 0) }
  function EvidenceCall(): Advance { Advance(EvEvidence, Counterparty, AwaitingMe, Nothing, 0) }
  function CancelCall(): Advance { Advance(EvCancel, Owner, Cancelled, ReturnReservation, 0) }
  function DisputeCall(actor: Actor): Advance { Advance(EvDispute, actor, Disputed, Nothing, 0) }
  function AcceptCall(side: Side): Advance {
    Advance(EvAccept, Owner, S1, if side == Sell then SetFunding else Nothing, 0)
  }
  function ReceiptCall(actor: Actor, uploader: UserId): Advance {
    Advance(EvReceipt, actor, S3V, AddReceipt(uploader), 0)
  }
  function VerifyCall(actor: Actor): Advance { Advance(EvVerify, actor, S4, Nothing, 0) }
  function BindCall(): Advance { Advance(EvBind, System, S3, Nothing, 0) }
  function FundedCall(dst: OrderState): Advance { Advance(EvFunded, System, dst, Nothing, 0) }
  function TickCall(dst: OrderState, extra: Extra): Advance { Advance(EvTick, System, dst, extra, 0) }
  function PayCall(): Advance { Advance(EvTick, System, S5, Nothing, 100) }
  function VoteCall(dst: OrderState, score: nat): Advance { Advance(EvReleaseVote, AgentOf(), dst, Nothing, score) }

  function AgentOf(): Actor { Actor.Agent }

  // The calls the service makes on such an order, whatever state it read before it made them.
  predicate Issued(o: OrderRow, a: Advance) {
    if o.kind == ConditionalTransfer then IssuedConditional(a) else IssuedOTC(o.side, a)
  }

  predicate IssuedConditional(a: Advance) {
    || a == ConfirmCall() || a == EvidenceCall() || a == CancelCall() || a == DisputeCall(Owner)
    || a == FundedCall(Locked)
    || a == TickCall(Expired, Nothing) || a == TickCall(Releasing, Nothing)
    || a == TickCall(AwaitingCounterparty, Nothing) || a == TickCall(AwaitingMe, Nothing)
    || a == VoteCall(Released, a.score) || a == VoteCall(AwaitingMe, 0)
  }

  predicate IssuedOTC(side: Side, a: Advance) {
    || a == AcceptCall(side) || a == CancelCall()
    || ((a.actor == Owner || a.actor == Counterparty) && (a == DisputeCall(a.actor) || a == VerifyCall(a.actor)))
    || ((a.actor == Owner || a.actor == Counterparty) && a.extra.AddReceipt?
        && a == ReceiptCall(a.actor, a.extra.uploader))
    || a == TickCall(Cancelled, ReturnReservation) || a == TickCall(Expired, ReturnReservation)
    || (side == Buy && a == BindCall())
    || (side == Sell && a == FundedCall(S3))
    || a == PayCall()
  }

  // A call as it was issued, or with its reservation forgotten because the order's terms could not be read.
  predicate Sent(o: OrderRow, a: Advance) {
    Issued(o, a) || (a.extra == Nothing && Issued(o, a.(extra := ReturnReservation)))
  }

  // The chain action goes on record with the row.
  function Recorded(o: OrderRow, out: Action): OrderRow {
    if out == NoAction then o else o.(evidence := o.evidence + {out})
  }

  // The row after a call is committed to it.
  function Advanced(o: OrderRow, a: Advance): Result<OrderRow, OrderError> {
    var n :- Apply(StandingOf(o), a.ev, a.actor, a.dst);
    Success(o.(state := n.state, terminal := n.terminal, lastFrom := o.state,
               fundingVia := o.fundingVia || a.extra == SetFunding,
               receipt := if a.extra.AddReceipt? then Some(a.extra.uploader) else o.receipt,
               counted := o.counted && a.extra != ReturnReservation))
  }

  function Ruled(o: OrderRow, release: bool): Result<OrderRow, OrderError> {
    var n :- Rule(StandingOf(o), release);
    Success(o.(state := n.state, terminal := n.terminal, lastFrom := o.state))
  }

  // ── what holds of every row ──

  // What the scheduler relies on: there is no tick out of an unfunded sell order in s1, and no
  // verification without a receipt. Nobody funds an order whose coins the maker has locked.
  predicate TickReady(o: OrderRow) {
    && WellPlaced(StandingOf(o))
    && (o.state == S1 && o.side == Sell ==> o.fundingVia)
    && (o.kind == OTCTake && o.side == Buy ==> !o.fundingVia)
    && (o.state == S3V ==> o.receipt.Some?)
  }

  // Every call the service makes keeps it.
  lemma AdvancedKeepsReady(o: OrderRow, a: Advance)
    requires TickReady(o) && Sent(o, a) && Advanced(o, a).Success?
    ensures TickReady(Advanced(o, a).value)
  {
    ApplyExactly(StandingOf(o), a.ev, a.actor, a.dst);
    LegalMoves(o.kind, o.state, a.ev, a.actor, a.dst);
    TargetsOfCalls(o, a);
  }

  lemma TargetsOfCalls(o: OrderRow, a: Advance)
    requires Sent(o, a)
    ensures a.dst == S1 && o.side == Sell ==> a.extra == SetFunding
    ensures o.kind == OTCTake && o.side == Buy ==> a.extra != SetFunding
    ensures a.dst == S3V ==> a.extra.AddReceipt?
  {}
}
