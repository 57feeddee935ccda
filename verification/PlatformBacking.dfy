// When sell offers are backed: whatever has leaked, or was cut by others, is traced to what caused it.
module PlatformBacking {
  import opened Results
  import opened Sums
  import opened Erc20
  import opened EscrowModel
  import opened EscrowBooks
  import opened EscrowTheorems
  import opened EscrowGrowth
  import opened OrderMachine
  import opened Orders
  import opened Platform
  import opened PlatformBooks
  import opened PlatformTheorems
  import opened PlatformCauses

  // ── what settling does to one position ──

  // The chain action of a call that gives a reservation back.
  lemma ReturningAction(cfg: Config, w: World, tx: Tx, seal: Seal, id: Id, a: Advance)
    requires Serves(w.orders, id, a)
    requires BeginAdvance(cfg, w, tx, seal, id, a).Success? && a.extra == ReturnReservation
    ensures id in w.orders && Issued(w.orders[id], a) && w.orders[id].terminal == TermNone
    ensures Legal(w.orders[id].kind, w.orders[id].state, a.ev, a.actor, a.dst)
    ensures Act(cfg, w.chain, tx, RefundIfEscrowed(w.chain, id, seal)).Success?
    ensures BeginAdvance(cfg, w, tx, seal, id, a).value ==
            w.(chain := Act(cfg, w.chain, tx, RefundIfEscrowed(w.chain, id, seal)).value,
               pending := w.pending + multiset{AdvancePending(id, Carried(w.orders[id], a, seal),
                                                              ActionName(RefundIfEscrowed(w.chain, id, seal)))})
  {
    CallIsSent(w.orders[id], a);
    SettleBegins(cfg, w, tx, seal, id, a);
  }

  lemma RefundEffect(cfg: Config, c: State, tx: Tx, seal: Seal, id: Id)
    requires Inv(cfg.dep, c) && Act(cfg, c, tx, RefundIfEscrowed(c, id, seal)).Success?
    ensures var c' := Act(cfg, c, tx, RefundIfEscrowed(c, id, seal)).value;
      if seal.positionRead && id in c.positions && c.positions[id].status == Escrowed
      then c'.positions == c.positions[id := c.positions[id].(status := Status.Refunded)]
      else c' == c
  {
    if seal.positionRead && id in c.positions && c.positions[id].status == Escrowed {
      RefundExactly(cfg.dep, c, tx, Attestation(id, ToRefund, 0, seal.nonce, seal.deadline), [seal.sig]);
    }
  }

  // A completion that has somebody to pay releases an escrowed position.
  lemma ReleaseEffect(cfg: Config, c: State, tx: Tx, seal: Seal, id: Id, o: OrderRow, score: nat)
    requires Inv(cfg.dep, c) && PayeeRead(cfg, o, seal) != 0
    requires Act(cfg, c, tx, SettleCall(cfg, c, id, o, TermCompleted, score, seal)).Success?
    ensures id in c.positions && c.positions[id].status == Escrowed
    ensures Act(cfg, c, tx, SettleCall(cfg, c, id, o, TermCompleted, score, seal)).value.positions
            == c.positions[id := c.positions[id].(status := Status.Released)]
  {
    ReleaseExactly(cfg.dep, c, tx, Attestation(id, ToRelease, score, seal.nonce, seal.deadline), [seal.sig]);
  }

  // After a call that cancels or expires an order, its slice is refunded exactly when it was before or
  // settlement did not leave it alone.
  lemma ReturningRefundsExactly(cfg: Config, w: World, tx: Tx, seal: Seal, id: Id, a: Advance)
    requires Inv(cfg.dep, w.chain) && Serves(w.orders, id, a) && a.extra == ReturnReservation
    requires BeginAdvance(cfg, w, tx, seal, id, a).Success? && IsSlice(w.chain.positions, id)
    ensures var P, P' := w.chain.positions, BeginAdvance(cfg, w, tx, seal, id, a).value.chain.positions;
      id in P' && (P'[id].status == Refunded <==> P[id].status == Refunded || !LeftAlone(P[id], seal))
  {
    ReturningAction(cfg, w, tx, seal, id, a);
    RefundEffect(cfg, w.chain, tx, seal, id);
  }

  // ── what every run keeps, but for what it has caused ──

  // A slice that no outsider bound is an order's, on its terms. Once its order no longer counts it has been
  // refunded, unless the order is one of `loose`.
  predicate SliceCovered(P: Positions, O: Rows, outside: set<Id>, loose: set<Id>, id: Id) {
    IsSlice(P, id) && id !in outside ==>
      && id in O && O[id].kind == OTCTake && O[id].offer == P[id].offerId && O[id].amount == P[id].amount
      && (id in loose || O[id].counted || P[id].status == Refunded)
  }

  // A call that will give a reservation back has refunded the slice, if there is one.
  predicate ReturnCovered(p: Pending, P: Positions, outside: set<Id>, loose: set<Id>) {
    p.AdvancePending? && p.a.extra == ReturnReservation && IsSlice(P, p.id) && p.id !in outside + loose ==>
      P[p.id].status == Refunded
  }

  ghost predicate Covered(P: Positions, O: Rows, Q: multiset<Pending>, outside: set<Id>, loose: set<Id>) {
    && (forall id {:trigger SliceCovered(P, O, outside, loose, id)} :: SliceCovered(P, O, outside, loose, id))
    && (forall p {:trigger ReturnCovered(p, P, outside, loose)} :: p in Q ==> ReturnCovered(p, P, outside, loose))
  }

  ghost predicate CoveredWorld(w: World, outside: set<Id>, loose: set<Id>) {
    Covered(w.chain.positions, w.orders, w.pending, outside, loose)
  }

  predicate SliceFrom(P: Positions, P': Positions, outside: set<Id>, id: Id) {
    IsSlice(P', id) ==> IsSlice(P, id) || id in outside
  }

  // The chain moves on and cuts no new slice but for outsiders.
  lemma CoverFollows(P: Positions, P': Positions, O: Rows, Q: multiset<Pending>,
                     outside: set<Id>, loose: set<Id>, outside': set<Id>, loose': set<Id>)
    requires Covered(P, O, Q, outside, loose) && PositionsKept(P, P')
    requires outside <= outside' && loose <= loose'
    requires forall id {:trigger SliceFrom(P, P', outside', id)} :: SliceFrom(P, P', outside', id)
    ensures Covered(P', O, Q, outside', loose')
  {
    forall id ensures SliceCovered(P', O, outside', loose', id) {
      assert SliceCovered(P, O, outside, loose, id) && Kept(P, P', id) && SliceFrom(P, P', outside', id);
    }
    forall p | p in Q ensures ReturnCovered(p, P', outside', loose') {
      if p.AdvancePending? {
        assert ReturnCovered(p, P, outside, loose) && Kept(P, P', p.id) && SliceFrom(P, P', outside', p.id);
      }
    }
  }

  lemma ActFollows(cfg: Config, c: State, tx: Tx, call: Option<Call>, outside: set<Id>)
    requires Inv(cfg.dep, c) && Act(cfg, c, tx, call).Success?
    requires call.Some? && call.value.BindListingLockCall? ==> call.value.orderId in outside
    ensures var P, P' := c.positions, Act(cfg, c, tx, call).value.positions;
      && PositionsKept(P, P')
      && forall id {:trigger SliceFrom(P, P', outside, id)} :: SliceFrom(P, P', outside, id)
  {
    if call.Some? {
      StepChainGrows(cfg.dep, c, tx, call.value);
      var P, P' := c.positions, Act(cfg, c, tx, call).value.positions;
      forall id ensures SliceFrom(P, P', outside, id) {
        assert FromDeposit(P, P', call.value, id) && Kept(P, P', id);
      }
    }
  }

  lemma PendingCovered(P: Positions, O: Rows, Q: multiset<Pending>, outside: set<Id>, loose: set<Id>, p: Pending)
    requires Covered(P, O, Q, outside, loose) && ReturnCovered(p, P, outside, loose)
    ensures Covered(P, O, Q + multiset{p}, outside, loose)
  {
    forall q | q in Q + multiset{p} ensures ReturnCovered(q, P, outside, loose) {
      if q != p { assert q in Q; }
    }
  }

  lemma OpenCounts(o: OrderRow)
    requires TickReady(o) && CountedRight(o) && o.terminal == TermNone
    ensures o.counted
  {}

  // ── the platform's own calls ──

  lemma ReturnBeginsCovered(cfg: Config, w: World, tx: Tx, seal: Seal, id: Id, a: Advance,
                            outside: set<Id>, loose: set<Id>, loose': set<Id>)
    requires Inv(cfg.dep, w.chain) && CoveredWorld(w, outside, loose) && loose <= loose'
    requires Serves(w.orders, id, a) && a.extra == ReturnReservation
    requires BeginAdvance(cfg, w, tx, seal, id, a).Success?
    requires LeavesBehind(w.chain.positions, seal, id, a) ==> id in loose'
    ensures CoveredWorld(BeginAdvance(cfg, w, tx, seal, id, a).value, outside, loose')
  {
    var P, O := w.chain.positions, w.orders;
    ReturningAction(cfg, w, tx, seal, id, a);
    var call := RefundIfEscrowed(w.chain, id, seal);
    var P' := Act(cfg, w.chain, tx, call).value.positions;
    ActFollows(cfg, w.chain, tx, call, outside);
    CoverFollows(P, P', O, w.pending, outside, loose, outside, loose');
    assert SliceCovered(P, O, outside, loose, id) && SliceFrom(P, P', outside, id);
    if IsSlice(P, id) {
      ReturningRefundsExactly(cfg, w, tx, seal, id, a);
    }
    PendingCovered(P', O, w.pending, outside, loose', AdvancePending(id, Carried(O[id], a, seal), ActionName(call)));
  }

  // A binding cuts the slice of an open order.
  lemma SliceCutCovered(P: Positions, O: Rows, Q: multiset<Pending>, id: Id, p: Position,
                        outside: set<Id>, loose: set<Id>, loose': set<Id>)
    requires Covered(P, O, Q, outside, loose) && loose <= loose' && id !in P
    requires id in O && O[id].kind == OTCTake && O[id].offer == p.offerId && O[id].amount == p.amount && O[id].counted
    requires ReturnUnderWay(Q, id) ==> id in loose'
    ensures Covered(P[id := p], O, Q, outside, loose')
  {
    var P' := P[id := p];
    forall x ensures SliceCovered(P', O, outside, loose', x) {
      assert SliceCovered(P, O, outside, loose, x);
    }
    forall q | q in Q ensures ReturnCovered(q, P', outside, loose') {
      assert ReturnCovered(q, P, outside, loose);
      if q.AdvancePending? && q.a.extra == ReturnReservation && q.id == id {
        assert Returns(q, id);
      }
    }
  }

  lemma BindBeginsCovered(cfg: Config, w: World, tx: Tx, seal: Seal, id: Id, a: Advance,
                          outside: set<Id>, loose: set<Id>, loose': set<Id>)
    requires WorldOk(cfg, w) && CoveredWorld(w, outside, loose) && loose <= loose'
    requires Serves(w.orders, id, a) && a.ev == EvBind && BeginAdvance(cfg, w, tx, seal, id, a).Success?
    requires ReturnUnderWay(w.pending, id) ==> id in loose'
    ensures CoveredWorld(BeginAdvance(cfg, w, tx, seal, id, a).value, outside, loose')
  {
    var o := w.orders[id];
    BindBegins(cfg, w, tx, seal, id, a);
    CallIsSent(o, a);
    assert RowOk(o, w.offers);
    OpenCounts(o);
    BindBinds(cfg, w.chain, tx, BindOf(cfg, id, o, seal));
    var P' := BeginAdvance(cfg, w, tx, seal, id, a).value.chain.positions;
    SliceCutCovered(w.chain.positions, w.orders, w.pending, id, P'[id], outside, loose, loose');
    PendingCovered(P', w.orders, w.pending, outside, loose', AdvancePending(id, a, BindAction));
  }

  lemma SettleCovered(cfg: Config, w: World, tx: Tx, call: Option<Call>, p: Pending,
                      outside: set<Id>, loose: set<Id>)
    requires Inv(cfg.dep, w.chain) && CoveredWorld(w, outside, loose) && Act(cfg, w.chain, tx, call).Success?
    requires ActionName(call) != BindAction && (p.AdvancePending? ==> p.a.extra != ReturnReservation)
    ensures CoveredWorld(w.(chain := Act(cfg, w.chain, tx, call).value, pending := w.pending + multiset{p}), outside,
                         loose)
  {
    var P' := Act(cfg, w.chain, tx, call).value.positions;
    ActFollows(cfg, w.chain, tx, call, outside);
    CoverFollows(w.chain.positions, P', w.orders, w.pending, outside, loose, outside, loose);
    PendingCovered(P', w.orders, w.pending, outside, loose, p);
  }

  lemma AdvanceCovered(cfg: Config, w: World, tx: Tx, seal: Seal, id: Id, a: Advance,
                       outside: set<Id>, loose: set<Id>, loose': set<Id>)
    requires WorldOk(cfg, w) && CoveredWorld(w, outside, loose) && loose <= loose'
    requires Serves(w.orders, id, a) && BeginAdvance(cfg, w, tx, seal, id, a).Success?
    requires AdvanceCauses(cfg, w, seal, id, a, LeftBehind) || AdvanceCauses(cfg, w, seal, id, a, BoundLate)
             ==> id in loose'
    ensures CoveredWorld(BeginAdvance(cfg, w, tx, seal, id, a).value, outside, loose')
  {
    CallIsSent(w.orders[id], a);
    if a.extra == ReturnReservation {
      ReturnBeginsCovered(cfg, w, tx, seal, id, a, outside, loose, loose');
    } else if a.ev == EvBind {
      BindBeginsCovered(cfg, w, tx, seal, id, a, outside, loose, loose');
    } else {
      SettleBegins(cfg, w, tx, seal, id, a);
      var call := SettleCall(cfg, w.chain, id, w.orders[id], TerminalOf(a.dst), a.score, seal);
      SettleNames(cfg, w.chain, id, w.orders[id], TerminalOf(a.dst), a.score, seal);
      LooserCover(w, outside, loose, outside, loose');
      SettleCovered(cfg, w, tx, call, AdvancePending(id, Carried(w.orders[id], a, seal), ActionName(call)), outside,
                    loose');
    }
  }

  lemma LooserCover(w: World, outside: set<Id>, loose: set<Id>, outside': set<Id>, loose': set<Id>)
    requires CoveredWorld(w, outside, loose) && outside <= outside' && loose <= loose'
    ensures CoveredWorld(w, outside', loose')
  {
    var P := w.chain.positions;
    forall id ensures SliceFrom(P, P, outside', id) {}
    CoverFollows(P, P, w.orders, w.pending, outside, loose, outside', loose');
  }

  // ── commits ──

  // A row is stored, and calls are dropped.
  lemma RowCovered(P: Positions, O: Rows, Q: multiset<Pending>, Q': multiset<Pending>, id: Id, o: OrderRow,
                   outside: set<Id>, loose: set<Id>)
    requires Covered(P, O, Q, outside, loose) && forall p :: p in Q' ==> p in Q
    requires SliceCovered(P, O[id := o], outside, loose, id)
    ensures Covered(P, O[id := o], Q', outside, loose)
  {
    var O' := O[id := o];
    forall x ensures SliceCovered(P, O', outside, loose, x) {
      assert SliceCovered(P, O, outside, loose, x);
    }
    forall p | p in Q' ensures ReturnCovered(p, P, outside, loose) {
      assert ReturnCovered(p, P, outside, loose);
    }
  }

  lemma AdvanceStoredCovered(cfg: Config, w: World, id: Id, a: Advance, out: Action, outside: set<Id>, loose: set<Id>)
    requires WorldOk(cfg, w) && CoveredWorld(w, outside, loose) && AdvancePending(id, a, out) in w.pending
    requires StoreAdvance(w.offers, w.orders, id, a, out).Success?
    ensures CoveredWorld(CommitCall(w, AdvancePending(id, a, out)), outside, loose)
  {
    var P, O, p := w.chain.positions, w.orders, AdvancePending(id, a, out);
    assert PendingOk(cfg, p, P, w.chain.listings, O, w.offers) && RowOk(O[id], w.offers);
    ApplyExactly(StandingOf(O[id]), a.ev, a.actor, a.dst);
    AdvancedCounted(O[id], a, out);
    assert SliceCovered(P, O, outside, loose, id) && ReturnCovered(p, P, outside, loose);
    RowCovered(P, O, w.pending, w.pending - multiset{p}, id, Recorded(Advanced(O[id], a).value, out), outside, loose);
  }

  lemma RulingStoredCovered(cfg: Config, w: World, id: Id, release: bool, out: Action, outside: set<Id>, loose: set<Id>)
    requires WorldOk(cfg, w) && CoveredWorld(w, outside, loose)
    requires StoreRuling(w.orders, id, release, out).Success?
    ensures CoveredWorld(CommitCall(w, RulingPending(id, release, out)), outside, loose)
  {
    var P, O, p := w.chain.positions, w.orders, RulingPending(id, release, out);
    assert RowOk(O[id], w.offers) && SliceCovered(P, O, outside, loose, id);
    RuledRow(O[id], release, out);
    RowCovered(P, O, w.pending, w.pending - multiset{p}, id, Recorded(Orders.Ruled(O[id], release).value, out), outside,
               loose);
  }

  lemma FewerPendingCovered(P: Positions, O: Rows, Q: multiset<Pending>, p: Pending, outside: set<Id>, loose: set<Id>)
    requires Covered(P, O, Q, outside, loose)
    ensures Covered(P, O, Q - multiset{p}, outside, loose)
  {}

  lemma CommitCovered(cfg: Config, w: World, p: Pending, outside: set<Id>, loose: set<Id>)
    requires WorldOk(cfg, w) && CoveredWorld(w, outside, loose) && p in w.pending
    ensures CoveredWorld(CommitCall(w, p), outside, loose)
  {
    var P, O := w.chain.positions, w.orders;
    FewerPendingCovered(P, O, w.pending, p, outside, loose);
    if Store(w.offers, O, p).Success? {
      match p
      case AdvancePending(id, a, out) => AdvanceStoredCovered(cfg, w, id, a, out, outside, loose);
      case RulingPending(id, release, out) => RulingStoredCovered(cfg, w, id, release, out, outside, loose);
      case TakePending(id, o) =>
        assert SliceCovered(P, O, outside, loose, id);
        RowCovered(P, O, w.pending, w.pending - multiset{p}, id, o, outside, loose);
      case FundingPending(id) =>
        assert SliceCovered(P, O, outside, loose, id);
        RowCovered(P, O, w.pending, w.pending - multiset{p}, id, O[id].(fundingVia := true), outside, loose);
      case OfferPending(_, _) =>
    }
  }

  // ── runs ──

  // The two causes that let a slice stay cut although its order gave its part of the offer back.
  ghost function LoosenedBy(cfg: Config, w: World, h: Happening): set<Id> {
    CausedBy(cfg, w, h, LeftBehind) + CausedBy(cfg, w, h, BoundLate)
  }

  ghost function Loosened(cfg: Config, w: World, run: seq<Happening>): set<Id> {
    Caused(cfg, w, run, LeftBehind) + Caused(cfg, w, run, BoundLate)
  }

  lemma HappeningCovered(cfg: Config, w: World, h: Happening, outside: set<Id>, loose: set<Id>)
    requires WorldOk(cfg, w) && Possible(cfg, w, h) && CoveredWorld(w, outside, loose)
    ensures CoveredWorld(Next(cfg, w, h), outside + CausedBy(cfg, w, h, BoundByOthers), loose + LoosenedBy(cfg, w, h))
  {
    var c, O, Q := w.chain, w.orders, w.pending;
    var outside', loose' := outside + CausedBy(cfg, w, h, BoundByOthers), loose + LoosenedBy(cfg, w, h);
    LooserCover(w, outside, loose, outside', loose');
    match h
    case Others(tx, call) =>
      if Step(cfg.dep, c, tx, call).Success? {
        ActFollows(cfg, c, tx, Some(call), outside');
        CoverFollows(c.positions, Step(cfg.dep, c, tx, call).value.positions, O, Q, outside', loose', outside', loose');
      }
    case AdvanceBegins(tx, seal, id, a) =>
      if BeginAdvance(cfg, w, tx, seal, id, a).Success? {
        AdvanceCovered(cfg, w, tx, seal, id, a, outside', loose', loose');
      }
    case RulingBegins(tx, seal, id, release) =>
      if BeginRuling(cfg, w, tx, seal, id, release).Success? {
        var call := SettleCall(cfg, c, id, O[id], RulingTerm(release), 0, seal);
        SettleNames(cfg, c, id, O[id], RulingTerm(release), 0, seal);
        SettleCovered(cfg, w, tx, call, RulingPending(id, release, ActionName(call)), outside', loose');
      }
    case Commits(p) => CommitCovered(cfg, w, p, outside', loose');
    case Crashes(p) => FewerPendingCovered(c.positions, O, Q, p, outside', loose');
    case _ => QuietCovered(cfg, w, h, outside', loose');
  }

  lemma QuietCovered(cfg: Config, w: World, h: Happening, outside: set<Id>, loose: set<Id>)
    requires CoveredWorld(w, outside, loose)
    requires h.OfferBegins? || h.TakeBegins? || h.FundingBegins? || h.ConditionalMade? || h.OfferDelisted?
    ensures CoveredWorld(Next(cfg, w, h), outside, loose)
  {
    var P, O, Q := w.chain.positions, w.orders, w.pending;
    match h
    case OfferBegins(f, maker, side, asset, qty) =>
      if BeginOffer(cfg, w, f, maker, side, asset, qty).Success? {
        PendingCovered(P, O, Q, outside, loose, OfferPending(f, Offer(maker, side, asset, qty, qty, Active)));
      }
    case TakeBegins(id, f, taker, amount) =>
      if BeginTake(w, id, f, taker, amount).Success? {
        PendingCovered(P, O, Q, outside, loose, TakePending(id, Taken(f, w.offers[f], taker, amount)));
      }
    case FundingBegins(id) =>
      if BeginFunding(w, id).Success? { PendingCovered(P, O, Q, outside, loose, FundingPending(id)); }
    case ConditionalMade(id, owner, counterparty, asset, amount, main) =>
      if id !in O {
        assert SliceCovered(P, O, outside, loose, id);
        RowCovered(P, O, Q, Q, id, Conditional(owner, counterparty, asset, amount, main), outside, loose);
      }
    case OfferDelisted(_) =>
  }

  lemma {:induction false} RunCovered(cfg: Config, w: World, run: seq<Happening>, outside: set<Id>, loose: set<Id>)
    requires WorldOk(cfg, w) && AllPossible(cfg, w, run) && CoveredWorld(w, outside, loose)
    ensures CoveredWorld(Later(cfg, w, run), outside + Caused(cfg, w, run, BoundByOthers),
                         loose + Loosened(cfg, w, run))
    decreases |run|
  {
    if run == [] {
      assert outside + {} == outside && loose + ({} + {}) == loose;
    } else {
      var w', rest := Next(cfg, w, run[0]), run[1..];
      var outside', loose' := outside + CausedBy(cfg, w, run[0], BoundByOthers), loose + LoosenedBy(cfg, w, run[0]);
      HappeningKeeps(cfg, w, run[0]);
      HappeningCovered(cfg, w, run[0], outside, loose);
      RunCovered(cfg, w', rest, outside', loose');
      assert outside' + Caused(cfg, w', rest, BoundByOthers) == outside + Caused(cfg, w, run, BoundByOthers);
      assert loose' + Loosened(cfg, w', rest) == loose + Loosened(cfg, w, run);
    }
  }

  // ── every run ──

  // Whatever happened, what has leaked from an offer's listing are slices of orders whose return was begun
  // over a slice that settlement left alone, or during whose return the platform bound, or that somebody else
  // bound; and what is cut for no order is what others bound.
  lemma LeaksHaveCauses(cfg: Config, w: World, tx: Tx, signers: seq<Address>, threshold: nat, minScore: nat,
                        T: Ledgers, run: seq<Happening>, f: Id)
    requires WorldReachedBy(cfg, w, tx, signers, threshold, minScore, T, run) && f != 0
    ensures var start := Empty(Deploy(cfg.dep, tx, signers, threshold, minScore, T).value);
      var outside, loose := Caused(cfg, start, run, BoundByOthers), Loosened(cfg, start, run);
      && Leaked(w, f) == Sum(loose + outside, LeakedFor(w.chain.positions, w.orders, f))
      && Foreign(w, f) == Sum(outside, ForeignFor(w.chain.positions, w.orders, f))
  {
    var start := Empty(Deploy(cfg.dep, tx, signers, threshold, minScore, T).value);
    var outside, loose := Caused(cfg, start, run, BoundByOthers), Loosened(cfg, start, run);
    EmptyIsOk(cfg, tx, signers, threshold, minScore, T);
    assert CoveredWorld(start, {}, {});
    RunCovered(cfg, start, run, {}, {});
    assert {} + outside == outside && {} + loose == loose;
    CoveredSums(w, f, outside, loose);
  }

  lemma CoveredSums(w: World, f: Id, outside: set<Id>, loose: set<Id>)
    requires CoveredWorld(w, outside, loose) && f != 0
    ensures Leaked(w, f) == Sum(loose + outside, LeakedFor(w.chain.positions, w.orders, f))
    ensures Foreign(w, f) == Sum(outside, ForeignFor(w.chain.positions, w.orders, f))
  {
    var P, O, K := w.chain.positions, w.orders, Ids(w);
    forall k ensures At(K, LeakedFor(P, O, f), k) == At(loose + outside, LeakedFor(P, O, f), k) {
      assert SliceCovered(P, O, outside, loose, k);
    }
    forall k ensures At(K, ForeignFor(P, O, f), k) == At(outside, ForeignFor(P, O, f), k) {
      assert SliceCovered(P, O, outside, loose, k);
    }
    SumAgree(K, LeakedFor(P, O, f), loose + outside, LeakedFor(P, O, f));
    SumAgree(K, ForeignFor(P, O, f), outside, ForeignFor(P, O, f));
  }

  // So while only the platform binds, and never during a return of the order, what has leaked is exactly what
  // the returns begun over a slice left alone have left behind, and nothing is cut for no order.
  lemma LeakedIsLeftBehind(cfg: Config, w: World, tx: Tx, signers: seq<Address>, threshold: nat, minScore: nat,
                           T: Ledgers, run: seq<Happening>, f: Id)
    requires WorldReachedBy(cfg, w, tx, signers, threshold, minScore, T, run) && f != 0
    requires var start := Empty(Deploy(cfg.dep, tx, signers, threshold, minScore, T).value);
             Caused(cfg, start, run, BoundByOthers) == {} && Caused(cfg, start, run, BoundLate) == {}
    ensures var start := Empty(Deploy(cfg.dep, tx, signers, threshold, minScore, T).value);
      && Leaked(w, f) == Sum(Caused(cfg, start, run, LeftBehind), LeakedFor(w.chain.positions, w.orders, f))
      && Foreign(w, f) == 0
  {
    var start := Empty(Deploy(cfg.dep, tx, signers, threshold, minScore, T).value);
    LeaksHaveCauses(cfg, w, tx, signers, threshold, minScore, T, run, f);
    assert Caused(cfg, start, run, LeftBehind) + {} + {} == Caused(cfg, start, run, LeftBehind);
  }

  // No slice of the listing that was not refunded is one of these.
  predicate NoneCut(P: Positions, f: Id, ids: set<Id>) {
    forall id :: id in ids ==> !Cut(P, f, id)
  }

  lemma NoneCutNoneLeaked(w: World, f: Id, outside: set<Id>, loose: set<Id>)
    requires NoneCut(w.chain.positions, f, outside + loose)
    ensures Sum(loose + outside, LeakedFor(w.chain.positions, w.orders, f)) == 0
    ensures Sum(outside, ForeignFor(w.chain.positions, w.orders, f)) == 0
  {
    var P, O := w.chain.positions, w.orders;
    forall k ensures At(loose + outside, LeakedFor(P, O, f), k) == 0 && At(outside, ForeignFor(P, O, f), k) == 0 {}
    SumVanishes(loose + outside, LeakedFor(P, O, f));
    SumVanishes(outside, ForeignFor(P, O, f));
  }

  // In every run, under any interleaving and crash, and whatever is disputed or paid out on the contract or
  // could not be read: a sell offer with an open listing is backed exactly when the slices cut for one of these
  // three causes are covered by what the maker locked on top and by orders that count without being about to be
  // bound. It is when none of them is still cut, and then the listing has beyond the offer what the maker locked
  // on top plus what its orders count for without a slice.
  lemma RunsAreBacked(cfg: Config, w: World, tx: Tx, signers: seq<Address>, threshold: nat, minScore: nat,
                      T: Ledgers, run: seq<Happening>, f: Id)
    requires WorldReachedBy(cfg, w, tx, signers, threshold, minScore, T, run)
    requires f in w.offers && w.offers[f].side == Sell && f in w.chain.listings && w.chain.listings[f].open
    ensures var start := Empty(Deploy(cfg.dep, tx, signers, threshold, minScore, T).value);
      var outside, loose := Caused(cfg, start, run, BoundByOthers), Loosened(cfg, start, run);
      var P, O, x, l := w.chain.positions, w.orders, w.offers[f], w.chain.listings[f];
      && (Backed(w, f) <==>
            Sum(loose + outside, LeakedFor(P, O, f)) + Sum(outside, ForeignFor(P, O, f))
            <= (l.total - x.qty) + (Unbound(w, f) - Awaiting(w, f)))
      && (NoneCut(P, f, outside + loose) ==>
            Backed(w, f) && (l.total - l.bound) - x.remaining == (l.total - x.qty) + Unbound(w, f))
  {
    var start := Empty(Deploy(cfg.dep, tx, signers, threshold, minScore, T).value);
    var outside, loose := Caused(cfg, start, run, BoundByOthers), Loosened(cfg, start, run);
    ReachableIsOk(cfg, w);
    assert OfferOk(cfg, w.offers[f], f, w.chain.listings);
    LeaksHaveCauses(cfg, w, tx, signers, threshold, minScore, T, run, f);
    if NoneCut(w.chain.positions, f, outside + loose) {
      NoneCutNoneLeaked(w, f, outside, loose);
    }
    BackedExactly(cfg, w, f);
    TwoLedgerEquation(cfg, w, f);
  }
}
