// Where acting on the chain first falls short: the slices that returned reservations leave behind, and
// which crashed calls can be made again.
module PlatformLimits {
  import opened Results
  import opened EscrowModel
  import opened EscrowBooks
  import opened EscrowTheorems
  import opened OrderMachine
  import opened Orders
  import opened Platform
  import opened PlatformBooks
  import opened PlatformTheorems
  import opened PlatformReads
  import opened PlatformCauses
  import opened PlatformBacking
  import Ticks

  // ── a cancelled order's slice ──

  // A call that cancels or expires an order without being interrupted leaks its amount exactly when the
  // order's slice is, at that moment, disputed on the contract, paid out, or escrowed but not readable,
  // and the order's terms could be read: settlement then does nothing and the reservation comes back.
  lemma ReturnLeaksExactly(cfg: Config, w: World, tx: Tx, seal: Seal, id: Id, a: Advance)
    requires WorldOk(cfg, w) && Serves(w.orders, id, a) && a.extra == ReturnReservation
    requires BeginAdvance(cfg, w, tx, seal, id, a).Success? && w.orders[id].kind == OTCTake
    ensures var o, P := w.orders[id], w.chain.positions;
      var w' := CommitCall(BeginAdvance(cfg, w, tx, seal, id, a).value, PendingOf(cfg, w, seal, id, a));
      LeakedOne(w'.chain.positions, w'.orders, o.offer, id)
      == if seal.termsRead && OwnCut(P, w.orders, o.offer, id) && LeftAlone(P[id], seal) then o.amount else 0
  {
    var o := w.orders[id];
    CallIsSent(o, a);
    ReturningAction(cfg, w, tx, seal, id, a);
    RefundEffect(cfg, w.chain, tx, seal, id);
    CarriedIsSent(o, a, seal);
    assert RowOk(o, w.offers);
    ReturnCommits(BeginAdvance(cfg, w, tx, seal, id, a).value, id, Carried(o, a, seal),
                  PendingOf(cfg, w, seal, id, a).out);
  }

  // The cancellation of an order without a position, as it waits for its commit.
  function IdleCancel(o: OrderRow, seal: Seal, id: Id): Pending {
    AdvancePending(id, Carried(o, CancelCall(), seal), NoAction)
  }

  function BoundPending(id: Id): Pending {
    AdvancePending(id, BindCall(), BindAction)
  }

  // Cancelling an order that has no position does nothing on the chain.
  lemma CancelBeginsIdle(cfg: Config, w: World, tx: Tx, seal: Seal, id: Id)
    requires Serves(w.orders, id, CancelCall()) && id !in w.chain.positions
    requires BeginAdvance(cfg, w, tx, seal, id, CancelCall()).Success? && w.orders[id].kind == OTCTake
    ensures w.orders[id].terminal == TermNone
    ensures BeginAdvance(cfg, w, tx, seal, id, CancelCall()).value
            == w.(pending := w.pending + multiset{IdleCancel(w.orders[id], seal, id)})
  {
    ReturningAction(cfg, w, tx, seal, id, CancelCall());
  }

  // A binding takes up the slice it asked for.
  lemma BindBeginsSlice(cfg: Config, w: World, tx: Tx, seal: Seal, id: Id)
    requires BeginAdvance(cfg, w, tx, seal, id, BindCall()).Success?
    ensures var begun := BeginAdvance(cfg, w, tx, seal, id, BindCall()).value;
      && Legal(w.orders[id].kind, w.orders[id].state, EvBind, System, S3) && w.orders[id].terminal == TermNone
      && begun.orders == w.orders && begun.offers == w.offers && begun.pending == w.pending + multiset{BoundPending(id)}
      && id !in w.chain.positions && id in begun.chain.positions && begun.chain.positions[id].status == Escrowed
      && begun.chain.positions[id].offerId == w.orders[id].offer
      && begun.chain.positions[id].amount == w.orders[id].amount
  {
    BindBegins(cfg, w, tx, seal, id, BindCall());
    BindBinds(cfg, w.chain, tx, BindOf(cfg, id, w.orders[id], seal));
  }

  // An open order with its slice cut, which the service may cancel and the table lets it.
  predicate SlicedAndCancellable(w: World, id: Id) {
    && id in w.orders && w.orders[id].kind == OTCTake && w.orders[id].terminal == TermNone
    && RowOk(w.orders[id], w.offers) && Issued(w.orders[id], CancelCall())
    && Legal(OTCTake, w.orders[id].state, EvCancel, Owner, Cancelled)
    && OwnCut(w.chain.positions, w.orders, w.orders[id].offer, id)
  }

  // The binding commits, and the cancellation is legal again, from s3.
  lemma BindCommits(w: World, id: Id)
    requires id in w.orders && w.orders[id].terminal == TermNone && w.orders[id].kind == OTCTake
    requires Legal(OTCTake, w.orders[id].state, EvBind, System, S3)
    requires Serves(w.orders, id, BindCall()) && RowOk(w.orders[id], w.offers)
    ensures var w', p := CommitCall(w, BoundPending(id)), BoundPending(id);
      && w'.chain == w.chain && w'.offers == w.offers && w'.pending == w.pending - multiset{p}
      && id in w'.orders && SameDeal(w.orders[id], w'.orders[id]) && RowOk(w'.orders[id], w'.offers)
      && Aims(To(S3), w'.orders[id].state) && w'.orders[id].terminal == TermNone
      && (OwnCut(w.chain.positions, w.orders, w.orders[id].offer, id) ==> SlicedAndCancellable(w', id))
  {
    ApplyExactly(StandingOf(w.orders[id]), EvBind, System, S3);
    AdvancedKeepsReady(w.orders[id], BindCall());
    CancelFromS3();
  }

  lemma CancelFromS3()
    ensures Legal(OTCTake, S3, EvCancel, Owner, Cancelled)
  {
    Ticks.RowLeads(29, OTCTake, S3, EvCancel, Owner, Cancelled);
  }

  // The order before either call, and the world in which both are under way.
  ghost predicate Overlapping(cfg: Config, w: World, tx: Tx, seal: Seal, tx': Tx, seal': Seal, id: Id) {
    && WorldOk(cfg, w) && Sendable(cfg.dep, tx) && Sendable(cfg.dep, tx')
    && Serves(w.orders, id, CancelCall()) && Serves(w.orders, id, BindCall())
    && id in w.orders && w.orders[id].kind == OTCTake && id !in w.chain.positions
    && BeginAdvance(cfg, w, tx, seal, id, CancelCall()).Success?
    && BeginAdvance(cfg, BeginAdvance(cfg, w, tx, seal, id, CancelCall()).value, tx', seal', id, BindCall()).Success?
  }

  function BothBegun(cfg: Config, w: World, tx: Tx, seal: Seal, tx': Tx, seal': Seal, id: Id): World
    requires BeginAdvance(cfg, w, tx, seal, id, CancelCall()).Success?
    requires BeginAdvance(cfg, BeginAdvance(cfg, w, tx, seal, id, CancelCall()).value, tx', seal', id,
                          BindCall()).Success?
  {
    BeginAdvance(cfg, BeginAdvance(cfg, w, tx, seal, id, CancelCall()).value, tx', seal', id, BindCall()).value
  }

  lemma BothAreBegun(cfg: Config, w: World, tx: Tx, seal: Seal, tx': Tx, seal': Seal, id: Id)
    requires Overlapping(cfg, w, tx, seal, tx', seal', id)
    ensures var begun := BothBegun(cfg, w, tx, seal, tx', seal', id);
      && begun.orders == w.orders && begun.offers == w.offers && w.orders[id].terminal == TermNone
      && RowOk(w.orders[id], w.offers) && Legal(OTCTake, w.orders[id].state, EvBind, System, S3)
      && OwnCut(begun.chain.positions, w.orders, w.orders[id].offer, id)
      && begun.chain.positions[id].status == Escrowed
  {
    assert RowOk(w.orders[id], w.offers);
    CancelBeginsIdle(cfg, w, tx, seal, id);
    BindBeginsSlice(cfg, BeginAdvance(cfg, w, tx, seal, id, CancelCall()).value, tx', seal', id);
  }

  // A cancellation that began before the binding and commits after it leaves the slice escrowed under a
  // cancelled order, and its amount back on offer exactly when the cancellation could read the terms.
  lemma StaleCancelLeaks(cfg: Config, w: World, tx: Tx, seal: Seal, tx': Tx, seal': Seal, id: Id)
    requires Overlapping(cfg, w, tx, seal, tx', seal', id)
    ensures var o := w.orders[id];
      var bound := CommitCall(BothBegun(cfg, w, tx, seal, tx', seal', id), BoundPending(id));
      var end := CommitCall(bound, IdleCancel(o, seal, id));
      && id in end.orders && end.orders[id].terminal == TermCancelled
      && id in end.chain.positions && end.chain.positions[id].status == Escrowed
      && LeakedOne(end.chain.positions, end.orders, o.offer, id) == if seal.termsRead then o.amount else 0
  {
    var o := w.orders[id];
    BothAreBegun(cfg, w, tx, seal, tx', seal', id);
    var begun := BothBegun(cfg, w, tx, seal, tx', seal', id);
    BindCommits(begun, id);
    var bound := CommitCall(begun, BoundPending(id));
    assert IdleCancel(o, seal, id) == IdleCancel(bound.orders[id], seal, id);
    StaleCancelCommits(bound, seal, id);
  }

  lemma StaleCancelCommits(bound: World, seal: Seal, id: Id)
    requires SlicedAndCancellable(bound, id)
    ensures var o, end := bound.orders[id], CommitCall(bound, IdleCancel(bound.orders[id], seal, id));
      && id in end.orders && end.orders[id].terminal == TermCancelled && end.chain == bound.chain
      && LeakedOne(end.chain.positions, end.orders, o.offer, id) == if seal.termsRead then o.amount else 0
  {
    CarriedIsSent(bound.orders[id], CancelCall(), seal);
    var a := Carried(bound.orders[id], CancelCall(), seal);
    assert a.extra == (if seal.termsRead then ReturnReservation else Nothing);
    assert TerminalOf(a.dst) == TermCancelled;
    ReturnCommits(bound, id, a, NoAction);
  }

  // ── which calls can be made again after a crash ──

  // The call was taken up and acted on the chain, and crashed before its commit.
  function Crashed(cfg: Config, w: World, tx: Tx, seal: Seal, id: Id, a: Advance): World
    requires BeginAdvance(cfg, w, tx, seal, id, a).Success?
  {
    Next(cfg, BeginAdvance(cfg, w, tx, seal, id, a).value, Crashes(PendingOf(cfg, w, seal, id, a)))
  }

  lemma TakenBack(Q: multiset<Pending>, p: Pending)
    ensures Q + multiset{p} - multiset{p} == Q
  {}

  // All that is left of it is what it did on the chain.
  lemma CrashLeavesTheChain(cfg: Config, w: World, tx: Tx, seal: Seal, id: Id, a: Advance)
    requires BeginAdvance(cfg, w, tx, seal, id, a).Success?
    ensures Crashed(cfg, w, tx, seal, id, a) == w.(chain := BeginAdvance(cfg, w, tx, seal, id, a).value.chain)
  {
    PendingIsOf(cfg, w, tx, seal, id, a);
    TakenBack(w.pending, PendingOf(cfg, w, seal, id, a));
  }

  // When a call that does not bind can be taken up.
  lemma SettleBeginsExactly(cfg: Config, w: World, tx: Tx, seal: Seal, id: Id, a: Advance)
    requires a.ev != EvBind
    ensures BeginAdvance(cfg, w, tx, seal, id, a).Success? <==>
      && id in w.orders && w.orders[id].terminal == TermNone
      && Legal(w.orders[id].kind, w.orders[id].state, a.ev, a.actor, a.dst)
      && Act(cfg, w.chain, tx, SettleCall(cfg, w.chain, id, w.orders[id], TerminalOf(a.dst), a.score, seal)).Success?
  {
    if id in w.orders {
      CheckExactly(w.orders[id].kind, w.orders[id].state, a.ev, a.actor, a.dst);
    }
  }

  // Nobody can bind under an id that has a position.
  lemma BindingRefused(cfg: Config, w: World, tx: Tx, seal: Seal, id: Id, a: Advance)
    requires id in w.chain.positions && a.ev == EvBind
    ensures BeginAdvance(cfg, w, tx, seal, id, a).Failure?
  {
    if BeginAdvance(cfg, w, tx, seal, id, a).Success? {
      BindBegins(cfg, w, tx, seal, id, a);
      BindBinds(cfg, w.chain, tx, BindOf(cfg, id, w.orders[id], seal));
    }
  }

  // Completing an order whose position has been released: possible only for a call that cannot read whom
  // to pay, and so does nothing on the chain.
  lemma PaidCompletionBegins(cfg: Config, w: World, tx: Tx, seal: Seal, id: Id, a: Advance)
    requires Inv(cfg.dep, w.chain) && IsReleased(w.chain.positions, id)
    requires id in w.orders && w.orders[id].terminal == TermNone && a.ev != EvBind && TerminalOf(a.dst) == TermCompleted
    requires Legal(w.orders[id].kind, w.orders[id].state, a.ev, a.actor, a.dst)
    ensures BeginAdvance(cfg, w, tx, seal, id, a).Success? <==> PayeeRead(cfg, w.orders[id], seal) == 0
  {
    var o := w.orders[id];
    SettleBeginsExactly(cfg, w, tx, seal, id, a);
    if Act(cfg, w.chain, tx, SettleCall(cfg, w.chain, id, o, TermCompleted, a.score, seal)).Success? {
      if PayeeRead(cfg, o, seal) != 0 {
        ReleaseEffect(cfg, w.chain, tx, seal, id, o, a.score);
      }
    }
  }

  lemma BindCrashIsFinal(cfg: Config, w: World, tx: Tx, seal: Seal, id: Id, a: Advance, tx': Tx, seal': Seal)
    requires Serves(w.orders, id, a) && BeginAdvance(cfg, w, tx, seal, id, a).Success? && a.ev == EvBind
    ensures BeginAdvance(cfg, Crashed(cfg, w, tx, seal, id, a), tx', seal', id, a).Failure?
  {
    CrashLeavesTheChain(cfg, w, tx, seal, id, a);
    BindBegins(cfg, w, tx, seal, id, a);
    BindBinds(cfg, w.chain, tx, BindOf(cfg, id, w.orders[id], seal));
    BindingRefused(cfg, Crashed(cfg, w, tx, seal, id, a), tx', seal', id, a);
  }

  lemma ReleaseCrashRetries(cfg: Config, w: World, tx: Tx, seal: Seal, id: Id, a: Advance, tx': Tx, seal': Seal)
    requires WorldOk(cfg, w) && Sendable(cfg.dep, tx)
    requires Serves(w.orders, id, a) && BeginAdvance(cfg, w, tx, seal, id, a).Success?
    requires PendingOf(cfg, w, seal, id, a).out == ReleaseAction
    ensures BeginAdvance(cfg, Crashed(cfg, w, tx, seal, id, a), tx', seal', id, a).Success?
            <==> PayeeRead(cfg, w.orders[id], seal') == 0
  {
    CrashLeavesTheChain(cfg, w, tx, seal, id, a);
    SettleBegins(cfg, w, tx, seal, id, a);
    BeginAdvanceKeeps(cfg, w, tx, seal, id, a);
    SettleNames(cfg, w.chain, id, w.orders[id], TerminalOf(a.dst), a.score, seal);
    NamedReleaseIsOne(cfg, w.chain, tx, seal, id, w.orders[id], TerminalOf(a.dst), a.score);
    PaidCompletionBegins(cfg, Crashed(cfg, w, tx, seal, id, a), tx', seal', id, a);
  }

  // A settlement that names a refund is the refund of an escrowed position.
  lemma NamedRefundIsOne(cfg: Config, c: State, id: Id, o: OrderRow, term: Terminal, score: nat, seal: Seal)
    requires ActionName(SettleCall(cfg, c, id, o, term, score, seal)) == RefundAction
    ensures term == TermCancelled || term == TermExpired
    ensures seal.positionRead && id in c.positions && c.positions[id].status == Escrowed
    ensures SettleCall(cfg, c, id, o, term, score, seal) == RefundIfEscrowed(c, id, seal)
  {}

  lemma RefundCrashRetries(cfg: Config, w: World, tx: Tx, seal: Seal, id: Id, a: Advance, tx': Tx, seal': Seal)
    requires Inv(cfg.dep, w.chain)
    requires Serves(w.orders, id, a) && BeginAdvance(cfg, w, tx, seal, id, a).Success?
    requires PendingOf(cfg, w, seal, id, a).out == RefundAction
    ensures BeginAdvance(cfg, Crashed(cfg, w, tx, seal, id, a), tx', seal', id, a).Success?
  {
    CrashLeavesTheChain(cfg, w, tx, seal, id, a);
    SettleBegins(cfg, w, tx, seal, id, a);
    NamedRefundIsOne(cfg, w.chain, id, w.orders[id], TerminalOf(a.dst), a.score, seal);
    RefundEffect(cfg, w.chain, tx, seal, id);
    SettleBeginsExactly(cfg, Crashed(cfg, w, tx, seal, id, a), tx', seal', id, a);
  }

  lemma IdleCrashRetries(cfg: Config, w: World, tx: Tx, seal: Seal, id: Id, a: Advance)
    requires Serves(w.orders, id, a) && BeginAdvance(cfg, w, tx, seal, id, a).Success?
    requires PendingOf(cfg, w, seal, id, a).out == NoAction
    ensures Crashed(cfg, w, tx, seal, id, a) == w
  {
    CrashLeavesTheChain(cfg, w, tx, seal, id, a);
    SettleBegins(cfg, w, tx, seal, id, a);
    SettleNames(cfg, w.chain, id, w.orders[id], TerminalOf(a.dst), a.score, seal);
  }

  // A call that crashed after its chain action can be made again, with the same seal, exactly when that
  // action was none or a refund. After a refund any seal will do; after a binding none does; after a
  // release only one whose call cannot read whom to pay.
  lemma CrashedCallRetriesExactly(cfg: Config, w: World, tx: Tx, seal: Seal, id: Id, a: Advance)
    requires WorldOk(cfg, w) && Sendable(cfg.dep, tx)
    requires Serves(w.orders, id, a) && BeginAdvance(cfg, w, tx, seal, id, a).Success?
    ensures var out, crashed := PendingOf(cfg, w, seal, id, a).out, Crashed(cfg, w, tx, seal, id, a);
      && (BeginAdvance(cfg, crashed, tx, seal, id, a).Success? <==> out == NoAction || out == RefundAction)
      && (out == RefundAction ==> forall tx', seal' :: BeginAdvance(cfg, crashed, tx', seal', id, a).Success?)
      && (out == BindAction ==> forall tx', seal' :: BeginAdvance(cfg, crashed, tx', seal', id, a).Failure?)
      && (out == ReleaseAction ==> forall tx', seal' ::
            BeginAdvance(cfg, crashed, tx', seal', id, a).Success? <==> PayeeRead(cfg, w.orders[id], seal') == 0)
  {
    var crashed := Crashed(cfg, w, tx, seal, id, a);
    match PendingOf(cfg, w, seal, id, a).out
    case NoAction => IdleCrashRetries(cfg, w, tx, seal, id, a);
    case RefundAction =>
      forall tx', seal' ensures BeginAdvance(cfg, crashed, tx', seal', id, a).Success? {
        RefundCrashRetries(cfg, w, tx, seal, id, a, tx', seal');
      }
    case BindAction =>
      BindIsNamed(cfg, w, seal, id, a);
      forall tx', seal' ensures BeginAdvance(cfg, crashed, tx', seal', id, a).Failure? {
        BindCrashIsFinal(cfg, w, tx, seal, id, a, tx', seal');
      }
    case ReleaseAction =>
      ReleaseIsNamed(cfg, w, seal, id, a);
      forall tx', seal' ensures BeginAdvance(cfg, crashed, tx', seal', id, a).Success?
                                <==> PayeeRead(cfg, w.orders[id], seal') == 0 {
        ReleaseCrashRetries(cfg, w, tx, seal, id, a, tx', seal');
      }
  }

  // With nothing escrowed, a call that cancels or expires an order goes straight to its commit.
  lemma IdleReturn(cfg: Config, w: World, tx: Tx, seal: Seal, id: Id, a: Advance)
    requires Serves(w.orders, id, a) && a.extra == ReturnReservation
    requires id in w.orders && w.orders[id].terminal == TermNone
    requires Legal(w.orders[id].kind, w.orders[id].state, a.ev, a.actor, a.dst)
    requires !(id in w.chain.positions && w.chain.positions[id].status == Escrowed)
    ensures BeginAdvance(cfg, w, tx, seal, id, a)
            == Success(w.(pending := w.pending
                                     + multiset{AdvancePending(id, Carried(w.orders[id], a, seal), NoAction)}))
  {
    CallIsSent(w.orders[id], a);
    SettleBeginsExactly(cfg, w, tx, seal, id, a);
    SettleBegins(cfg, w, tx, seal, id, a);
  }

  // So a cancellation that crashed after it could read the position can be made again, with any seal, and
  // finds nothing left to refund.
  lemma ReturnIsRetrySafe(cfg: Config, w: World, tx: Tx, seal: Seal, tx': Tx, seal': Seal, id: Id, a: Advance)
    requires Inv(cfg.dep, w.chain) && Serves(w.orders, id, a) && a.extra == ReturnReservation && seal.positionRead
    requires BeginAdvance(cfg, w, tx, seal, id, a).Success?
    ensures var crashed := Crashed(cfg, w, tx, seal, id, a);
      && crashed.orders == w.orders
      && BeginAdvance(cfg, crashed, tx', seal', id, a)
         == Success(crashed.(pending := crashed.pending
                             + multiset{AdvancePending(id, Carried(w.orders[id], a, seal'), NoAction)}))
  {
    CrashLeavesTheChain(cfg, w, tx, seal, id, a);
    ReturningAction(cfg, w, tx, seal, id, a);
    RefundEffect(cfg, w.chain, tx, seal, id);
    IdleReturn(cfg, Crashed(cfg, w, tx, seal, id, a), tx', seal', id, a);
  }

  lemma BindIsNamed(cfg: Config, w: World, seal: Seal, id: Id, a: Advance)
    requires id in w.orders
    ensures PendingOf(cfg, w, seal, id, a).out == BindAction <==> a.ev == EvBind
  {}

  lemma ReleaseIsNamed(cfg: Config, w: World, seal: Seal, id: Id, a: Advance)
    requires id in w.orders && PendingOf(cfg, w, seal, id, a).out == ReleaseAction
    ensures a.ev != EvBind && TerminalOf(a.dst) == TermCompleted && PayeeRead(cfg, w.orders[id], seal) != 0
  {}

  // ── rulings ──

  predicate InDispute(o: OrderRow) {
    o.state == OrderState.Disputed
  }

  // A ruling for the buyer carries a score of zero. It goes through exactly when whom to pay could not be
  // read, or the contract asks for no score at all, the position is not in dispute there, and the seal is
  // good.
  lemma RulingReleasesExactly(cfg: Config, w: World, tx: Tx, seal: Seal, id: Id)
    requires WorldOk(cfg, w) && id in w.orders && InDispute(w.orders[id])
    ensures BeginRuling(cfg, w, tx, seal, id, true).Success? <==>
      || PayeeRead(cfg, w.orders[id], seal) == 0
      || (&& w.chain.minScore == 0
          && id in w.chain.positions && w.chain.positions[id].status == Escrowed
          && Attested(cfg.dep, w.chain, tx, Attestation(id, ToRelease, 0, seal.nonce, seal.deadline), [seal.sig]))
  {
    ReleaseExactly(cfg.dep, w.chain, tx, Attestation(id, ToRelease, 0, seal.nonce, seal.deadline), [seal.sig]);
  }

  // A ruling as it waits for its commit, and the world after it crashed there.
  function RulingOf(cfg: Config, w: World, seal: Seal, id: Id, release: bool): Pending
    requires id in w.orders
  {
    RulingPending(id, release, ActionName(SettleCall(cfg, w.chain, id, w.orders[id], RulingTerm(release), 0, seal)))
  }

  function CrashedRuling(cfg: Config, w: World, tx: Tx, seal: Seal, id: Id, release: bool): World
    requires BeginRuling(cfg, w, tx, seal, id, release).Success?
  {
    Next(cfg, BeginRuling(cfg, w, tx, seal, id, release).value, Crashes(RulingOf(cfg, w, seal, id, release)))
  }

  lemma RulingBegins(cfg: Config, w: World, tx: Tx, seal: Seal, id: Id, release: bool)
    ensures BeginRuling(cfg, w, tx, seal, id, release).Success? <==>
      && id in w.orders && InDispute(w.orders[id])
      && Act(cfg, w.chain, tx, SettleCall(cfg, w.chain, id, w.orders[id], RulingTerm(release), 0, seal)).Success?
    ensures BeginRuling(cfg, w, tx, seal, id, release).Success? ==>
      var call := SettleCall(cfg, w.chain, id, w.orders[id], RulingTerm(release), 0, seal);
      && CrashedRuling(cfg, w, tx, seal, id, release) == w.(chain := Act(cfg, w.chain, tx, call).value)
  {
    if BeginRuling(cfg, w, tx, seal, id, release).Success? {
      TakenBack(w.pending, RulingOf(cfg, w, seal, id, release));
    }
  }

  // A ruling on a position that is already settled.
  lemma RulingOnSettled(cfg: Config, w: World, tx: Tx, seal: Seal, id: Id, release: bool)
    requires Inv(cfg.dep, w.chain) && id in w.orders && InDispute(w.orders[id])
    requires id in w.chain.positions && Settled(w.chain.positions[id])
    ensures BeginRuling(cfg, w, tx, seal, id, release).Success?
            <==> !release || PayeeRead(cfg, w.orders[id], seal) == 0
    ensures !release ==> BeginRuling(cfg, w, tx, seal, id, release).value
                         == w.(pending := w.pending + multiset{RulingPending(id, false, NoAction)})
  {
    RulingBegins(cfg, w, tx, seal, id, release);
    if release && PayeeRead(cfg, w.orders[id], seal) != 0 {
      if BeginRuling(cfg, w, tx, seal, id, release).Success? {
        ReleaseEffect(cfg, w.chain, tx, seal, id, w.orders[id], 0);
      }
    }
  }

  // What a ruling that acted on the chain leaves there when it crashes.
  lemma CrashedRulingSettled(cfg: Config, w: World, tx: Tx, seal: Seal, id: Id, release: bool)
    requires WorldOk(cfg, w) && Sendable(cfg.dep, tx) && BeginRuling(cfg, w, tx, seal, id, release).Success?
    ensures var out, crashed := RulingOf(cfg, w, seal, id, release).out, CrashedRuling(cfg, w, tx, seal, id, release);
      && Inv(cfg.dep, crashed.chain) && crashed.orders == w.orders
      && (out == NoAction ==> crashed == w)
      && (out == ReleaseAction ==> IsReleased(crashed.chain.positions, id))
      && (out == RefundAction ==> id in crashed.chain.positions && crashed.chain.positions[id].status == Refunded)
      && out != BindAction && (release ==> out != RefundAction) && (!release ==> out != ReleaseAction)
  {
    var o := w.orders[id];
    RulingBegins(cfg, w, tx, seal, id, release);
    BeginRulingKeeps(cfg, w, tx, seal, id, release);
    SettleNames(cfg, w.chain, id, o, RulingTerm(release), 0, seal);
    match RulingOf(cfg, w, seal, id, release).out
    case ReleaseAction => NamedReleaseIsOne(cfg, w.chain, tx, seal, id, o, RulingTerm(release), 0);
    case RefundAction =>
      NamedRefundIsOne(cfg, w.chain, id, o, RulingTerm(release), 0, seal);
      RefundEffect(cfg, w.chain, tx, seal, id);
    case _ =>
  }

  // A ruling that crashed can be made again, with the same seal, exactly when it had not released; and
  // after a release only by a call that cannot read whom to pay.
  lemma CrashedRulingRetriesExactly(cfg: Config, w: World, tx: Tx, seal: Seal, id: Id, release: bool)
    requires WorldOk(cfg, w) && Sendable(cfg.dep, tx) && BeginRuling(cfg, w, tx, seal, id, release).Success?
    ensures var out, crashed := RulingOf(cfg, w, seal, id, release).out, CrashedRuling(cfg, w, tx, seal, id, release);
      && (BeginRuling(cfg, crashed, tx, seal, id, release).Success? <==> out != ReleaseAction)
      && (out == ReleaseAction ==> forall tx', seal' ::
            BeginRuling(cfg, crashed, tx', seal', id, release).Success? <==> PayeeRead(cfg, w.orders[id], seal') == 0)
  {
    var out, crashed := RulingOf(cfg, w, seal, id, release).out, CrashedRuling(cfg, w, tx, seal, id, release);
    CrashedRulingSettled(cfg, w, tx, seal, id, release);
    SettleNames(cfg, w.chain, id, w.orders[id], RulingTerm(release), 0, seal);
    RulingBegins(cfg, w, tx, seal, id, release);
    if out != NoAction {
      forall tx', seal' ensures BeginRuling(cfg, crashed, tx', seal', id, release).Success?
                                <==> !release || PayeeRead(cfg, w.orders[id], seal') == 0 {
        RulingOnSettled(cfg, crashed, tx', seal', id, release);
      }
    }
  }

  // A ruling for the buyer that crashes after its release can be followed, whatever the seal, by one for
  // the seller, which is then recorded as cancelled although the coins are out.
  lemma CrashedRulingCanBeContradicted(cfg: Config, w: World, tx: Tx, seal: Seal, tx': Tx, seal': Seal, id: Id)
    requires WorldOk(cfg, w) && Sendable(cfg.dep, tx) && id in w.orders && PayeeRead(cfg, w.orders[id], seal) != 0
    requires BeginRuling(cfg, w, tx, seal, id, true).Success?
    ensures var other := BeginRuling(cfg, CrashedRuling(cfg, w, tx, seal, id, true), tx', seal', id, false);
      && other.Success?
      && var end := CommitCall(other.value, RulingPending(id, false, NoAction));
         && id in end.orders && end.orders[id].terminal == TermCancelled
         && IsReleased(end.chain.positions, id)
  {
    SettleNames(cfg, w.chain, id, w.orders[id], TermCompleted, 0, seal);
    CrashedRulingSettled(cfg, w, tx, seal, id, true);
    RulingBegins(cfg, w, tx, seal, id, true);
    RulingOnSettled(cfg, CrashedRuling(cfg, w, tx, seal, id, true), tx', seal', id, false);
  }
}
