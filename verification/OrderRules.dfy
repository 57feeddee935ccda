// Who may do what to an order, and when, said without the transition table.
module OrderRules {
  import opened Results
  import opened OrderMachine
  import opened Orders
  import opened Ticks

  // ── the rules, event by event ──

  // Who may do it. The payer confirms, disputes and cancels, the payee delivers evidence, the agents vote, and the
  // rest is the system's; the taker accepts and cancels, and either side may see to the fiat.
  predicate MayAct(kind: Kind, ev: OrderEvent, actor: Actor) {
    match ev
    case EvConfirm => actor == Owner
    case EvCancel => actor == Owner
    case EvAccept => actor == Owner
    case EvEvidence => actor == Counterparty
    case EvTick => actor == System
    case EvBind => actor == System
    case EvReleaseVote => actor == Actor.Agent
    case EvDispute => if kind == ConditionalTransfer then actor == Owner else actor != Actor.Agent
    case EvFunded => actor != Actor.Agent
    case EvReceipt => actor != Actor.Agent
    case EvVerify => actor != Actor.Agent
    case _ => false
  }

  // From where to where. The payer can have the money back until its release begins; the clock ends every wait,
  // and the vote either pays or hands the order back.
  predicate ConditionalMove(src: OrderState, ev: OrderEvent, dst: OrderState) {
    match ev
    case EvFunded => src == Fund && dst == Locked
    case EvConfirm => src == AwaitingMe && dst == Releasing
    case EvDispute => src == AwaitingMe && dst == Disputed
    case EvEvidence => src == AwaitingCounterparty && dst == AwaitingMe
    case EvCancel =>
      (src == Fund || src == Locked || src == AwaitingCounterparty || src == AwaitingMe) && dst == Cancelled
    case EvReleaseVote => src == Releasing && (dst == Released || dst == AwaitingMe)
    case EvTick => ConditionalTick(src, dst)
    case _ => false
  }

  predicate ConditionalTick(src: OrderState, dst: OrderState) {
    match src
    case Fund => dst == Expired
    case Locked => dst == AwaitingCounterparty || dst == Releasing
    case AwaitingCounterparty => dst == AwaitingMe || dst == Releasing || dst == Expired
    case AwaitingMe => dst == Releasing || dst == Expired
    case _ => false
  }

  // The taker can have out until the fiat is shown to be paid; the clock pays once that has been checked.
  predicate OTCMove(src: OrderState, ev: OrderEvent, dst: OrderState) {
    match ev
    case EvAccept => src == Match && dst == S1
    case EvBind => src == S1 && dst == S3
    case EvFunded => src == S1 && dst == S3
    case EvReceipt => src == S3 && dst == S3V
    case EvVerify => src == S3V && dst == S4
    case EvDispute => (src == S3 || src == S3V) && dst == Disputed
    case EvCancel => (src == Match || src == S1 || src == S3) && dst == Cancelled
    case EvTick => OTCTick(src, dst)
    case _ => false
  }

  predicate OTCTick(src: OrderState, dst: OrderState) {
    match src
    case Match => dst == Cancelled
    case S3 => dst == Expired
    case S3V => dst == Expired
    case S4 => dst == S5
    case _ => false
  }

  predicate Allowed(kind: Kind, src: OrderState, ev: OrderEvent, actor: Actor, dst: OrderState) {
    && MayAct(kind, ev, actor)
    && if kind == ConditionalTransfer then ConditionalMove(src, ev, dst) else OTCMove(src, ev, dst)
  }

  // ── the table says no more ──

  predicate RightActors(e: Edge) {
    forall actor :: actor in e.actors ==> MayAct(e.kind, e.event, actor)
  }

  predicate RightMove(e: Edge) {
    if e.kind == ConditionalTransfer then ConditionalMove(e.src, e.event, e.dst) else OTCMove(e.src, e.event, e.dst)
  }

  predicate AllRight(edges: seq<Edge>) {
    forall i :: 0 <= i < |edges| ==> RightActors(edges[i]) && RightMove(edges[i])
  }

  lemma ConditionalEdgeRight(i: nat)
    requires i < |ConditionalEdges()|
    ensures RightActors(ConditionalEdges()[i]) && RightMove(ConditionalEdges()[i])
  {}

  lemma OTCEdgeRight(i: nat)
    requires i < |OTCEdges()|
    ensures RightActors(OTCEdges()[i]) && RightMove(OTCEdges()[i])
  {}

  lemma EveryEdgeRight()
    ensures AllRight(Table())
  {
    var n := |ConditionalEdges()|;
    forall i | 0 <= i < |Table()| ensures RightActors(Table()[i]) && RightMove(Table()[i]) {
      if i < n { ConditionalEdgeRight(i); } else { OTCEdgeRight(i - n); }
    }
  }

  lemma RightEdge(edges: seq<Edge>, kind: Kind, src: OrderState, ev: OrderEvent, actor: Actor, dst: OrderState)
    requires AllRight(edges) && LegalIn(edges, |edges|, kind, src, ev, actor, dst)
    ensures Allowed(kind, src, ev, actor, dst)
  {
    var i :| 0 <= i < |edges| && Leads(edges[i], kind, src, ev, actor, dst);
    assert RightActors(edges[i]) && RightMove(edges[i]);
  }

  lemma LegalIsAllowed(kind: Kind, src: OrderState, ev: OrderEvent, actor: Actor, dst: OrderState)
    requires Legal(kind, src, ev, actor, dst)
    ensures Allowed(kind, src, ev, actor, dst)
  {
    EveryEdgeRight();
    RightEdge(Table(), kind, src, ev, actor, dst);
  }

  // ── and no less ──

  // The row of the table that is for a move, if any is.
  function ConditionalRow(src: OrderState, ev: OrderEvent, dst: OrderState): nat {
    match ev
    case EvFunded => 0
    case EvEvidence => 5
    case EvConfirm => 9
    case EvDispute => 12
    case EvReleaseVote => if dst == Released then 13 else 14
    case _ => (match src case Fund => 1 case Locked => 15 case AwaitingCounterparty => 16 case _ => 17)
  }

  function TickRow(src: OrderState, dst: OrderState): nat {
    match src
    case Fund => 2
    case Locked => if dst == Releasing then 4 else 3
    case AwaitingCounterparty => (match dst case AwaitingMe => 6 case Releasing => 7 case _ => 8)
    case _ => if dst == Releasing then 10 else 11
  }

  function OTCRow(src: OrderState, ev: OrderEvent): nat {
    match ev
    case EvAccept => 0
    case EvBind => 1
    case EvFunded => 2
    case EvReceipt => 4
    case EvVerify => 6
    case EvDispute => if src == S3 then 5 else 7
    case _ => (match src case S1 => 3 case Match => 10 case _ => 11)
  }

  function OTCTickRow(src: OrderState): nat {
    match src case S3V => 8 case S4 => 9 case Match => 12 case _ => 13
  }

  lemma TickRowLeads(src: OrderState, dst: OrderState)
    requires ConditionalTick(src, dst)
    ensures TickRow(src, dst) < |ConditionalEdges()|
    ensures Leads(ConditionalEdges()[TickRow(src, dst)], ConditionalTransfer, src, EvTick, System, dst)
  {}

  lemma ConditionalRowLeads(src: OrderState, ev: OrderEvent, actor: Actor, dst: OrderState)
    requires ev != EvTick && MayAct(ConditionalTransfer, ev, actor) && ConditionalMove(src, ev, dst)
    ensures ConditionalRow(src, ev, dst) < |ConditionalEdges()|
    ensures Leads(ConditionalEdges()[ConditionalRow(src, ev, dst)], ConditionalTransfer, src, ev, actor, dst)
  {}

  lemma OTCTickRowLeads(src: OrderState, dst: OrderState)
    requires OTCTick(src, dst)
    ensures OTCTickRow(src) < |OTCEdges()|
    ensures Leads(OTCEdges()[OTCTickRow(src)], OTCTake, src, EvTick, System, dst)
  {}

  lemma OTCRowLeads(src: OrderState, ev: OrderEvent, actor: Actor, dst: OrderState)
    requires ev != EvTick && MayAct(OTCTake, ev, actor) && OTCMove(src, ev, dst)
    ensures OTCRow(src, ev) < |OTCEdges()|
    ensures Leads(OTCEdges()[OTCRow(src, ev)], OTCTake, src, ev, actor, dst)
  {}

  lemma ConditionalIsLegal(src: OrderState, ev: OrderEvent, actor: Actor, dst: OrderState)
    requires Allowed(ConditionalTransfer, src, ev, actor, dst)
    ensures Legal(ConditionalTransfer, src, ev, actor, dst)
  {
    if ev == EvTick {
      TickRowLeads(src, dst);
      RowLeads(TickRow(src, dst), ConditionalTransfer, src, ev, actor, dst);
    } else {
      ConditionalRowLeads(src, ev, actor, dst);
      RowLeads(ConditionalRow(src, ev, dst), ConditionalTransfer, src, ev, actor, dst);
    }
  }

  lemma OTCIsLegal(src: OrderState, ev: OrderEvent, actor: Actor, dst: OrderState)
    requires Allowed(OTCTake, src, ev, actor, dst)
    ensures Legal(OTCTake, src, ev, actor, dst)
  {
    if ev == EvTick {
      OTCTickRowLeads(src, dst);
      RowLeads(|ConditionalEdges()| + OTCTickRow(src), OTCTake, src, ev, actor, dst);
    } else {
      OTCRowLeads(src, ev, actor, dst);
      RowLeads(|ConditionalEdges()| + OTCRow(src, ev), OTCTake, src, ev, actor, dst);
    }
  }

  lemma LegalExactly(kind: Kind, src: OrderState, ev: OrderEvent, actor: Actor, dst: OrderState)
    ensures Legal(kind, src, ev, actor, dst) <==> Allowed(kind, src, ev, actor, dst)
  {
    if Legal(kind, src, ev, actor, dst) {
      LegalIsAllowed(kind, src, ev, actor, dst);
    }
    if Allowed(kind, src, ev, actor, dst) {
      if kind == ConditionalTransfer {
        ConditionalIsLegal(src, ev, actor, dst);
      } else {
        OTCIsLegal(src, ev, actor, dst);
      }
    }
  }

  // A transition is accepted exactly when the rules allow it, and then ends the order as its new state does.
  lemma CheckIsAllowed(kind: Kind, src: OrderState, ev: OrderEvent, actor: Actor, dst: OrderState)
    ensures Check(kind, src, ev, actor, To(dst)) ==
            if Allowed(kind, src, ev, actor, dst) then Success(TerminalOf(dst)) else Failure(InvalidTransition)
  {
    CheckExactly(kind, src, ev, actor, dst);
    LegalExactly(kind, src, ev, actor, dst);
  }

  // Some of what this comes to. While the payer may still object, neither the payee nor the agents can do
  // anything; only the agents end a release, and they do nothing else.
  lemma RolesByState(kind: Kind, src: OrderState, ev: OrderEvent, actor: Actor, dst: OrderState)
    requires Check(kind, src, ev, actor, To(dst)).Success?
    ensures src == AwaitingMe ==> actor == Owner || actor == System
    ensures src == Releasing <==> actor == Actor.Agent
  {
    CheckIsAllowed(kind, src, ev, actor, dst);
  }

  // Confirming, cancelling and accepting are the owner's alone, evidence the counterparty's, the vote the
  // agents', and the clock and the binding the system's.
  lemma RolesByEvent(kind: Kind, src: OrderState, ev: OrderEvent, actor: Actor, dst: OrderState)
    requires Check(kind, src, ev, actor, To(dst)).Success?
    ensures ev == EvConfirm || ev == EvCancel || ev == EvAccept ==> actor == Owner
    ensures ev == EvEvidence ==> actor == Counterparty
    ensures ev == EvTick || ev == EvBind ==> actor == System
    ensures ev == EvReleaseVote <==> actor == Actor.Agent
  {
    CheckExactly(kind, src, ev, actor, dst);
    ActorsByEvent(kind, src, ev, actor, dst);
  }

  lemma ActorsByEvent(kind: Kind, src: OrderState, ev: OrderEvent, actor: Actor, dst: OrderState)
    requires Legal(kind, src, ev, actor, dst)
    ensures MayAct(kind, ev, actor)
  {
    LegalIsAllowed(kind, src, ev, actor, dst);
  }

  // ── every call is accepted where it is meant to be ──

  predicate MeantFor(o: OrderRow, ev: OrderEvent) {
    match ev
    case EvConfirm => o.state == AwaitingMe
    case EvEvidence => o.state == AwaitingCounterparty
    case EvAccept => o.state == Match
    case EvReceipt => o.state == S3
    case EvVerify => o.state == S3V
    case EvBind => o.state == S1
    case EvReleaseVote => o.state == Releasing
    case EvFunded => if o.kind == ConditionalTransfer then o.state == Fund else o.state == S1
    case EvDispute => if o.kind == ConditionalTransfer then o.state == AwaitingMe else o.state == S3 || o.state == S3V
    case EvCancel =>
      if o.kind == ConditionalTransfer
      then o.state == Fund || o.state == Locked || o.state == AwaitingCounterparty || o.state == AwaitingMe
      else o.state == Match || o.state == S1 || o.state == S3
    case _ => false
  }

  lemma ConditionalCallFits(o: OrderRow, a: Advance)
    requires o.kind == ConditionalTransfer && IssuedConditional(a) && a.ev != EvTick
    ensures Allowed(o.kind, o.state, a.ev, a.actor, a.dst) <==> MeantFor(o, a.ev)
  {}

  lemma OTCCallFits(o: OrderRow, a: Advance)
    requires o.kind == OTCTake && IssuedOTC(o.side, a) && a.ev != EvTick
    ensures Allowed(o.kind, o.state, a.ev, a.actor, a.dst) <==> MeantFor(o, a.ev)
  {}

  // What people, the chain watcher and the agents ask of an order is done exactly in the states it is for.
  // (For the clock's calls see Ticks.EveryTickLegal.)
  lemma CallsAccepted(o: OrderRow, a: Advance)
    requires Issued(o, a) && a.ev != EvTick
    ensures Advanced(o, a).Success? <==> o.terminal == TermNone && MeantFor(o, a.ev)
    ensures Advanced(o, a).Failure? ==>
              Advanced(o, a).error == if o.terminal != TermNone then ReadOnly else InvalidTransition
  {
    ApplyExactly(StandingOf(o), a.ev, a.actor, a.dst);
    LegalExactly(o.kind, o.state, a.ev, a.actor, a.dst);
    if o.kind == ConditionalTransfer { ConditionalCallFits(o, a); } else { OTCCallFits(o, a); }
  }

  // What an accepted call leaves of the row: a receipt only by a receipt call, a funding choice only by a
  // seller's acceptance, the stock back on the offer exactly when the trade is off.
  predicate Leaves(o: OrderRow, a: Advance, o': OrderRow) {
    && o' == o.(state := a.dst, terminal := TerminalOf(a.dst), lastFrom := o.state, receipt := o'.receipt,
                fundingVia := o'.fundingVia, counted := o'.counted)
    && (a.ev == EvReceipt ==> a.extra.AddReceipt? && o'.receipt == Some(a.extra.uploader))
    && (a.ev != EvReceipt ==> o'.receipt == o.receipt)
    && o'.fundingVia == (o.fundingVia || (a.ev == EvAccept && o.side == Sell))
    && (o.kind == OTCTake ==>
          o'.counted == (o.counted && TerminalOf(a.dst) != TermCancelled && TerminalOf(a.dst) != TermExpired))
  }

  lemma MovedLeaves(o: OrderRow, a: Advance)
    requires Issued(o, a)
    ensures Leaves(o, a, Moved(o, a))
  {}

  lemma CallLeaves(o: OrderRow, a: Advance)
    requires Issued(o, a) && Advanced(o, a).Success?
    ensures Leaves(o, a, Advanced(o, a).value)
  {
    ApplyExactly(StandingOf(o), a.ev, a.actor, a.dst);
    assert Advanced(o, a).value == Moved(o, a);
    MovedLeaves(o, a);
  }

  // A ruling is for disputes, and gives the order either to the payee or back.
  lemma RulingLeaves(o: OrderRow, release: bool)
    ensures Ruled(o, release).Success? <==> o.state == Disputed
    ensures Ruled(o, release).Success? ==>
              var end := if release then Released else Cancelled;
              Ruled(o, release).value == o.(state := end, terminal := TerminalOf(end), lastFrom := Disputed)
  {}

  // ── over whole lives ──

  predicate StartsRelease(m: Move) {
    m == Try(EvConfirm, Owner, Releasing) || m == Try(EvTick, System, Releasing)
  }

  predicate IsReleasing(s: OrderState) {
    s == Releasing
  }

  // Whatever is tried on a conditional order, its release begins with the payer's own word, or with the clock.
  lemma {:induction false} ReleaseBegins(moves: seq<Move>)
    ensures var (o, done) := Life(ConditionalTransfer, moves);
            && o.kind == ConditionalTransfer
            && (IsReleasing(o.state) ==> done != [] && StartsRelease(done[|done| - 1]))
  {
    if moves != [] {
      var init, m := moves[..|moves| - 1], moves[|moves| - 1];
      ReleaseBegins(init);
      var (o, done) := Life(ConditionalTransfer, init);
      if m.Try? && TryMove(o, m).Success? {
        ReleaseStep(o, m);
      }
    }
  }

  lemma ReleaseStep(o: Standing, m: Move)
    requires o.kind == ConditionalTransfer && m.Try? && TryMove(o, m).Success?
    ensures IsReleasing(TryMove(o, m).value.state) ==> StartsRelease(m)
  {
    ApplyExactly(o, m.ev, m.actor, m.dst);
    LegalExactly(o.kind, o.state, m.ev, m.actor, m.dst);
  }

  function LifeFrom(o: Standing, moves: seq<Move>): Standing {
    if moves == [] then o else
      var before := LifeFrom(o, moves[..|moves| - 1]);
      match TryMove(before, moves[|moves| - 1])
      case Success(o') => o'
      case Failure(_) => before
  }

  // While the payer may object, payee and agents may try what they like: the order stays where it is.
  lemma {:induction false} PayeeCannotHurry(o: Standing, moves: seq<Move>)
    requires o.kind == ConditionalTransfer && o.state == AwaitingMe
    requires forall i :: 0 <= i < |moves| ==>
               moves[i].Try? && (moves[i].actor == Counterparty || moves[i].actor == Actor.Agent)
    ensures LifeFrom(o, moves) == o
  {
    if moves != [] {
      var m := moves[|moves| - 1];
      PayeeCannotHurry(o, moves[..|moves| - 1]);
      if TryMove(o, m).Success? {
        RolesByState(o.kind, o.state, m.ev, m.actor, m.dst);
      }
    }
  }
}
