// What the platform's database and the contract say about each other, in every state that calls,
// crashes and other people's transactions can lead to.
module PlatformBooks {
  import opened Results
  import opened Sums
  import opened Erc20
  import opened EscrowModel
  import opened EscrowBooks
  import opened EscrowSteps
  import opened EscrowTheorems
  import opened EscrowGrowth
  import opened OrderMachine
  import opened Orders
  import opened Platform

  // ── one order, one offer, one position ──

  // An order's amount stays counted against its offer until a call gives it back, which only the ending
  // of an order as cancelled or expired does, and never a ruling.
  predicate CountedRight(o: OrderRow) {
    !o.counted ==> (o.terminal == TermCancelled || o.terminal == TermExpired) && o.lastFrom != OrderState.Disputed
  }

  predicate DealOk(o: OrderRow, F: Offers) {
    && o.offer != 0 && o.offer in F
    && F[o.offer].asset == o.asset && F[o.offer].maker == o.counterparty && F[o.offer].side != o.side
  }

  predicate RowOk(o: OrderRow, F: Offers) {
    TickReady(o) && CountedRight(o) && (o.kind == OTCTake ==> DealOk(o, F))
  }

  predicate IsReleased(P: Positions, id: Id) {
    id in P && P[id].status == Status.Released
  }

  // The order has a slice of its offer's listing, on its own terms, for the taker.
  predicate BoundRight(cfg: Config, o: OrderRow, id: Id, P: Positions) {
    && id in P
    && P[id].offerId == o.offer != 0 && P[id].amount == o.amount
    && P[id].beneficiary == cfg.addressOf(o.owner) != 0
  }

  // A release on record was made, and a buy order past its funding has its slice.
  predicate ProgressOk(cfg: Config, o: OrderRow, id: Id, P: Positions) {
    && (ReleaseAction in o.evidence ==> IsReleased(P, id))
    && (o.kind == OTCTake && o.side == Buy && PastFunding(o.state) ==> BoundRight(cfg, o, id, P))
  }

  predicate LockOk(cfg: Config, x: Offer, f: Id, L: Listings) {
    && f in L
    && L[f].maker == cfg.addressOf(x.maker) && L[f].token == x.asset
    && (L[f].open ==> L[f].total >= x.qty)
  }

  predicate StockOk(x: Offer) {
    && x.remaining <= x.qty
    && (x.status == Active ==> x.remaining > 0)
    && (x.status == Filled ==> x.remaining == 0)
  }

  predicate OfferOk(cfg: Config, x: Offer, f: Id, L: Listings) {
    f != 0 && StockOk(x) && (x.side == Sell ==> LockOk(cfg, x, f, L))
  }

  // What a call that has acted on the chain can still rely on when it commits.
  predicate PendingOk(cfg: Config, p: Pending, P: Positions, L: Listings, O: Rows, F: Offers) {
    match p
    case AdvancePending(id, a, out) =>
      && id in O && Sent(O[id], a)
      && (out == ReleaseAction ==> IsReleased(P, id))
      && (a.ev == EvBind ==> BoundRight(cfg, O[id], id, P))
    case RulingPending(id, _, out) => id in O && (out == ReleaseAction ==> IsReleased(P, id))
    case OfferPending(f, x) => OfferOk(cfg, x, f, L) && x.remaining == x.qty
    case TakePending(id, o) => o.offer in F && o.offer != 0 && o == Taken(o.offer, F[o.offer], o.owner, o.amount)
    case FundingPending(id) => id in O && !(O[id].kind == OTCTake && O[id].side == Buy)
  }

  // ── reservations ──

  function HeldOne(O: Rows, f: Id, id: Id): int {
    if id in O && O[id].kind == OTCTake && O[id].offer == f && O[id].counted then O[id].amount else 0
  }

  function HeldFor(O: Rows, f: Id): nat -> int {
    (id: nat) => HeldOne(O, f, id)
  }

  // The amounts of all orders of offer `f` that still count against its stock.
  ghost function HeldSum(O: Rows, f: Id): int {
    Sum(O.Keys, HeldFor(O, f))
  }

  ghost predicate ReservedRight(O: Rows, F: Offers, f: Id)
    requires f in F
  {
    F[f].remaining + HeldSum(O, f) == F[f].qty
  }

  // ── the invariant ──

  ghost predicate RowsOk(O: Rows, F: Offers) {
    forall id {:trigger RowOk(O[id], F)} :: id in O ==> RowOk(O[id], F)
  }

  ghost predicate ProgressAll(cfg: Config, O: Rows, P: Positions) {
    forall id {:trigger ProgressOk(cfg, O[id], id, P)} :: id in O ==> ProgressOk(cfg, O[id], id, P)
  }

  ghost predicate OffersOk(cfg: Config, F: Offers, L: Listings) {
    forall f {:trigger OfferOk(cfg, F[f], f, L)} :: f in F ==> OfferOk(cfg, F[f], f, L)
  }

  ghost predicate PendingsOk(cfg: Config, Q: multiset<Pending>, P: Positions, L: Listings, O: Rows, F: Offers) {
    forall p {:trigger PendingOk(cfg, p, P, L, O, F)} :: p in Q ==> PendingOk(cfg, p, P, L, O, F)
  }

  ghost predicate Conserved(O: Rows, F: Offers) {
    forall f {:trigger ReservedRight(O, F, f)} :: f in F ==> ReservedRight(O, F, f)
  }

  ghost predicate Linked(cfg: Config, P: Positions, L: Listings, O: Rows, F: Offers, Q: multiset<Pending>) {
    && RowsOk(O, F) && ProgressAll(cfg, O, P) && OffersOk(cfg, F, L)
    && PendingsOk(cfg, Q, P, L, O, F) && Conserved(O, F)
  }

  ghost predicate WorldOk(cfg: Config, w: World) {
    && Inv(cfg.dep, w.chain)
    && Linked(cfg, w.chain.positions, w.chain.listings, w.orders, w.offers, w.pending)
  }

  // ── what never changes about orders and offers ──

  predicate SameDeal(o: OrderRow, o': OrderRow) {
    && o'.kind == o.kind && o'.owner == o.owner && o'.counterparty == o.counterparty && o'.asset == o.asset
    && o'.amount == o.amount && o'.main == o.main && o'.side == o.side && o'.offer == o.offer
  }

  predicate RowKept(O: Rows, O': Rows, id: Id) {
    id in O ==> id in O' && SameDeal(O[id], O'[id])
  }

  ghost predicate RowsGrow(O: Rows, O': Rows) {
    forall id {:trigger RowKept(O, O', id)} :: RowKept(O, O', id)
  }

  predicate SameLot(x: Offer, y: Offer) {
    y.maker == x.maker && y.side == x.side && y.asset == x.asset && y.qty == x.qty
  }

  predicate OfferKept(F: Offers, F': Offers, f: Id) {
    f in F ==> f in F' && SameLot(F[f], F'[f])
  }

  ghost predicate OffersGrow(F: Offers, F': Offers) {
    forall f {:trigger OfferKept(F, F', f)} :: OfferKept(F, F', f)
  }

  ghost predicate PositionsKept(P: Positions, P': Positions) {
    forall id {:trigger Kept(P, P', id)} :: Kept(P, P', id)
  }

  lemma PendingGrows(cfg: Config, p: Pending, P: Positions, P': Positions, L: Listings, L': Listings,
                     O: Rows, O': Rows, F: Offers, F': Offers)
    requires PendingOk(cfg, p, P, L, O, F)
    requires PositionsKept(P, P') && ListingsGrow(L, L') && RowsGrow(O, O') && OffersGrow(F, F')
    ensures PendingOk(cfg, p, P', L', O', F')
  {
    match p
    case AdvancePending(id, _, _) => assert RowKept(O, O', id) && Kept(P, P', id);
    case RulingPending(id, _, _) => assert RowKept(O, O', id) && Kept(P, P', id);
    case OfferPending(f, x) => assert ListKept(L, L', f);
    case TakePending(id, o) =>
      assert OfferKept(F, F', o.offer);
    case FundingPending(id) => assert RowKept(O, O', id);
  }

  lemma PendingsGrow(cfg: Config, Q: multiset<Pending>, Q': multiset<Pending>, P: Positions, P': Positions,
                     L: Listings, L': Listings, O: Rows, O': Rows, F: Offers, F': Offers)
    requires PendingsOk(cfg, Q, P, L, O, F)
    requires forall p :: p in Q' ==> p in Q
    requires PositionsKept(P, P') && ListingsGrow(L, L') && RowsGrow(O, O') && OffersGrow(F, F')
    ensures PendingsOk(cfg, Q', P', L', O', F')
  {
    forall p | p in Q' ensures PendingOk(cfg, p, P', L', O', F') {
      assert PendingOk(cfg, p, P, L, O, F);
      PendingGrows(cfg, p, P, P', L, L', O, O', F, F');
    }
  }

  lemma NothingGrows(L: Listings, O: Rows, F: Offers, P: Positions)
    ensures ListingsGrow(L, L) && RowsGrow(O, O) && OffersGrow(F, F) && PositionsKept(P, P)
  {}

  // ── the chain moves ──

  lemma ProgressFollows(cfg: Config, O: Rows, P: Positions, P': Positions)
    requires ProgressAll(cfg, O, P) && PositionsKept(P, P')
    ensures ProgressAll(cfg, O, P')
  {
    forall id | id in O ensures ProgressOk(cfg, O[id], id, P') {
      assert ProgressOk(cfg, O[id], id, P) && Kept(P, P', id);
    }
  }

  lemma OffersFollow(cfg: Config, F: Offers, L: Listings, L': Listings)
    requires OffersOk(cfg, F, L) && ListingsGrow(L, L')
    ensures OffersOk(cfg, F, L')
  {
    forall f | f in F ensures OfferOk(cfg, F[f], f, L') {
      assert OfferOk(cfg, F[f], f, L) && ListKept(L, L', f);
    }
  }

  lemma LinkedFollows(cfg: Config, P: Positions, P': Positions, L: Listings, L': Listings, O: Rows, F: Offers,
                      Q: multiset<Pending>)
    requires Linked(cfg, P, L, O, F, Q)
    requires PositionsKept(P, P') && ListingsGrow(L, L')
    ensures Linked(cfg, P', L', O, F, Q)
  {
    ProgressFollows(cfg, O, P, P');
    OffersFollow(cfg, F, L, L');
    NothingGrows(L, O, F, P);
    PendingsGrow(cfg, Q, Q, P, P', L, L', O, O, F, F);
  }

  lemma ChainMoveKeeps(cfg: Config, w: World, tx: Tx, call: Call)
    requires WorldOk(cfg, w) && Sendable(cfg.dep, tx)
    requires Step(cfg.dep, w.chain, tx, call).Success?
    ensures WorldOk(cfg, w.(chain := Step(cfg.dep, w.chain, tx, call).value))
    ensures ChainGrows(w.chain, Step(cfg.dep, w.chain, tx, call).value, call)
  {
    var c, c' := w.chain, Step(cfg.dep, w.chain, tx, call).value;
    StepKeeps(cfg.dep, c, tx, call);
    StepChainGrows(cfg.dep, c, tx, call);
    LinkedFollows(cfg, c.positions, c'.positions, c.listings, c'.listings, w.orders, w.offers, w.pending);
  }

  // ── a call is taken up ──

  lemma PendingAdded(cfg: Config, w: World, p: Pending)
    requires WorldOk(cfg, w)
    requires PendingOk(cfg, p, w.chain.positions, w.chain.listings, w.orders, w.offers)
    ensures WorldOk(cfg, w.(pending := w.pending + multiset{p}))
  {
    var Q := w.pending + multiset{p};
    forall q | q in Q ensures PendingOk(cfg, q, w.chain.positions, w.chain.listings, w.orders, w.offers) {
      if q != p {
        assert q in w.pending;
      }
    }
  }

  lemma PendingDropped(cfg: Config, w: World, p: Pending)
    requires WorldOk(cfg, w)
    ensures WorldOk(cfg, w.(pending := w.pending - multiset{p}))
  {
    var c := w.chain;
    NothingGrows(c.listings, w.orders, w.offers, c.positions);
    PendingsGrow(cfg, w.pending, w.pending - multiset{p}, c.positions, c.positions, c.listings, c.listings,
                 w.orders, w.orders, w.offers, w.offers);
  }

  // Settling releases exactly when it completes an order whose payee could be read, and refunds only when
  // it does not.
  lemma SettleNames(cfg: Config, c: State, id: Id, o: OrderRow, term: Terminal, score: nat, seal: Seal)
    ensures var call := SettleCall(cfg, c, id, o, term, score, seal);
      && (ActionName(call) == ReleaseAction <==> term == TermCompleted && PayeeRead(cfg, o, seal) != 0)
      && (call.None? <==> ActionName(call) == NoAction)
      && ActionName(call) != BindAction
  {}

  // A settlement that completes an order leaves its position released exactly when its payee could be
  // read, or when it had been released before.
  lemma SettlePaysExactly(cfg: Config, c: State, tx: Tx, seal: Seal, id: Id, o: OrderRow, score: nat)
    requires Inv(cfg.dep, c)
    requires Act(cfg, c, tx, SettleCall(cfg, c, id, o, TermCompleted, score, seal)).Success?
    ensures IsReleased(Act(cfg, c, tx, SettleCall(cfg, c, id, o, TermCompleted, score, seal)).value.positions, id)
            <==> PayeeRead(cfg, o, seal) != 0 || IsReleased(c.positions, id)
  {
    if PayeeRead(cfg, o, seal) != 0 {
      ReleaseExactly(cfg.dep, c, tx, Attestation(id, ToRelease, score, seal.nonce, seal.deadline), [seal.sig]);
    }
  }

  // What a settlement names as a release is one.
  lemma NamedReleaseIsOne(cfg: Config, c: State, tx: Tx, seal: Seal, id: Id, o: OrderRow, term: Terminal, score: nat)
    requires Inv(cfg.dep, c)
    requires Act(cfg, c, tx, SettleCall(cfg, c, id, o, term, score, seal)).Success?
    requires ActionName(SettleCall(cfg, c, id, o, term, score, seal)) == ReleaseAction
    ensures IsReleased(Act(cfg, c, tx, SettleCall(cfg, c, id, o, term, score, seal)).value.positions, id)
  {
    SettleNames(cfg, c, id, o, term, score, seal);
    SettlePaysExactly(cfg, c, tx, seal, id, o, score);
  }

  // A binding leaves a slice of the offer's listing under the order's id.
  lemma BindBinds(cfg: Config, c: State, tx: Tx, call: Call)
    requires call.BindListingLockCall? && Step(cfg.dep, c, tx, call).Success?
    ensures var P := Step(cfg.dep, c, tx, call).value.positions;
            && call.orderId in P && call.orderId !in c.positions && P[call.orderId].status == Escrowed
            && P[call.orderId].offerId == call.offerId && P[call.orderId].amount == call.amount
            && P[call.orderId].beneficiary == call.beneficiary != 0
  {}

  lemma ActKeeps(cfg: Config, w: World, tx: Tx, call: Option<Call>)
    requires WorldOk(cfg, w) && Sendable(cfg.dep, tx)
    requires Act(cfg, w.chain, tx, call).Success?
    ensures WorldOk(cfg, w.(chain := Act(cfg, w.chain, tx, call).value))
  {
    if call.Some? {
      ChainMoveKeeps(cfg, w, tx, call.value);
    }
  }

  lemma CallIsSent(o: OrderRow, a: Advance)
    requires Sent(o, a)
    ensures a.ev == EvBind ==> o.kind == OTCTake && o.side == Buy && TerminalOf(a.dst) == TermNone
    ensures a.ev == EvFunded ==> !(o.kind == OTCTake && o.side == Buy)
    ensures a.extra == ReturnReservation ==>
              a.ev != EvBind && (TerminalOf(a.dst) == TermCancelled || TerminalOf(a.dst) == TermExpired)
  {}

  // An OTC call gives a reservation back exactly when it ends the order as cancelled or expired.
  lemma CallIsIssued(o: OrderRow, a: Advance)
    requires Issued(o, a)
    ensures o.kind == OTCTake ==>
              (a.extra == ReturnReservation <==> TerminalOf(a.dst) == TermCancelled || TerminalOf(a.dst) == TermExpired)
  {}

  lemma CarriedIsSent(o: OrderRow, a: Advance, seal: Seal)
    requires Issued(o, a)
    ensures Sent(o, Carried(o, a, seal))
    ensures Carried(o, a, seal).(extra := a.extra) == a
  {}

  // What a call that was taken up has done: settled the order, or bound it.
  lemma SettleBegins(cfg: Config, w: World, tx: Tx, seal: Seal, id: Id, a: Advance)
    requires BeginAdvance(cfg, w, tx, seal, id, a).Success? && a.ev != EvBind
    ensures id in w.orders && w.orders[id].terminal == TermNone
    ensures Legal(w.orders[id].kind, w.orders[id].state, a.ev, a.actor, a.dst)
    ensures var call := SettleCall(cfg, w.chain, id, w.orders[id], TerminalOf(a.dst), a.score, seal);
            && Act(cfg, w.chain, tx, call).Success?
            && BeginAdvance(cfg, w, tx, seal, id, a).value ==
               w.(chain := Act(cfg, w.chain, tx, call).value,
                  pending := w.pending + multiset{AdvancePending(id, Carried(w.orders[id], a, seal), ActionName(call))})
  {
    CheckExactly(w.orders[id].kind, w.orders[id].state, a.ev, a.actor, a.dst);
  }

  // The binding an order asks for.
  function BindOf(cfg: Config, id: Id, o: OrderRow, seal: Seal): Call
    requires o.amount <= MAX_UINT256
  {
    BindListingLockCall(id, o.offer, o.amount, PayeeRead(cfg, o, seal))
  }

  lemma BindBegins(cfg: Config, w: World, tx: Tx, seal: Seal, id: Id, a: Advance)
    requires BeginAdvance(cfg, w, tx, seal, id, a).Success? && a.ev == EvBind
    ensures id in w.orders && w.orders[id].terminal == TermNone && w.orders[id].amount <= MAX_UINT256
    ensures PayeeRead(cfg, w.orders[id], seal) != 0 && seal.termsRead
    ensures Legal(w.orders[id].kind, w.orders[id].state, a.ev, a.actor, a.dst)
    ensures var call := BindOf(cfg, id, w.orders[id], seal);
            && Step(cfg.dep, w.chain, tx, call).Success?
            && BeginAdvance(cfg, w, tx, seal, id, a).value ==
               w.(chain := Step(cfg.dep, w.chain, tx, call).value,
                  pending := w.pending + multiset{AdvancePending(id, a, BindAction)})
  {
    CheckExactly(w.orders[id].kind, w.orders[id].state, a.ev, a.actor, a.dst);
  }

  lemma BindKeeps(cfg: Config, w: World, tx: Tx, seal: Seal, id: Id, a: Advance)
    requires WorldOk(cfg, w) && Sendable(cfg.dep, tx) && Serves(w.orders, id, a) && a.ev == EvBind
    requires BeginAdvance(cfg, w, tx, seal, id, a).Success?
    ensures WorldOk(cfg, BeginAdvance(cfg, w, tx, seal, id, a).value)
  {
    BindBegins(cfg, w, tx, seal, id, a);
    var o := w.orders[id];
    var call := BindOf(cfg, id, o, seal);
    ChainMoveKeeps(cfg, w, tx, call);
    BindBinds(cfg, w.chain, tx, call);
    CallIsSent(o, a);
    assert RowOk(o, w.offers);
    PendingAdded(cfg, w.(chain := Step(cfg.dep, w.chain, tx, call).value), AdvancePending(id, a, BindAction));
  }

  lemma BeginAdvanceKeeps(cfg: Config, w: World, tx: Tx, seal: Seal, id: Id, a: Advance)
    requires WorldOk(cfg, w) && Sendable(cfg.dep, tx) && Serves(w.orders, id, a)
    requires BeginAdvance(cfg, w, tx, seal, id, a).Success?
    ensures WorldOk(cfg, BeginAdvance(cfg, w, tx, seal, id, a).value)
  {
    if a.ev == EvBind {
      BindKeeps(cfg, w, tx, seal, id, a);
    } else {
      SettleBegins(cfg, w, tx, seal, id, a);
      var o := w.orders[id];
      var call := SettleCall(cfg, w.chain, id, o, TerminalOf(a.dst), a.score, seal);
      ActKeeps(cfg, w, tx, call);
      CarriedIsSent(o, a, seal);
      if ActionName(call) == ReleaseAction {
        NamedReleaseIsOne(cfg, w.chain, tx, seal, id, o, TerminalOf(a.dst), a.score);
      }
      PendingAdded(cfg, w.(chain := Act(cfg, w.chain, tx, call).value),
                   AdvancePending(id, Carried(o, a, seal), ActionName(call)));
    }
  }

  function RulingTerm(release: bool): Terminal {
    if release then TermCompleted else TermCancelled
  }

  lemma BeginRulingKeeps(cfg: Config, w: World, tx: Tx, seal: Seal, id: Id, release: bool)
    requires WorldOk(cfg, w) && Sendable(cfg.dep, tx)
    requires BeginRuling(cfg, w, tx, seal, id, release).Success?
    ensures WorldOk(cfg, BeginRuling(cfg, w, tx, seal, id, release).value)
  {
    var o := w.orders[id];
    var call := SettleCall(cfg, w.chain, id, o, RulingTerm(release), 0, seal);
    ActKeeps(cfg, w, tx, call);
    if ActionName(call) == ReleaseAction {
      NamedReleaseIsOne(cfg, w.chain, tx, seal, id, o, RulingTerm(release), 0);
    }
    PendingAdded(cfg, w.(chain := Act(cfg, w.chain, tx, call).value), RulingPending(id, release, ActionName(call)));
  }

  lemma BeginOfferKeeps(cfg: Config, w: World, f: Id, maker: UserId, side: Side, asset: Address, qty: nat)
    requires WorldOk(cfg, w) && f != 0 && BeginOffer(cfg, w, f, maker, side, asset, qty).Success?
    ensures WorldOk(cfg, BeginOffer(cfg, w, f, maker, side, asset, qty).value)
  {
    PendingAdded(cfg, w, OfferPending(f, Offer(maker, side, asset, qty, qty, Active)));
  }

  lemma BeginTakeKeeps(cfg: Config, w: World, id: Id, f: Id, taker: UserId, amount: nat)
    requires WorldOk(cfg, w) && BeginTake(w, id, f, taker, amount).Success?
    ensures WorldOk(cfg, BeginTake(w, id, f, taker, amount).value)
  {
    assert OfferOk(cfg, w.offers[f], f, w.chain.listings);
    PendingAdded(cfg, w, TakePending(id, Taken(f, w.offers[f], taker, amount)));
  }

  // ── a call commits ──

  lemma HeldChange(O: Rows, O': Rows, f: Id, id: Id)
    requires SameBut(O, O', id)
    ensures HeldSum(O', f) - HeldSum(O, f) == HeldOne(O', f, id) - HeldOne(O, f, id)
  {
    forall k | k != id ensures At(O.Keys, HeldFor(O, f), k) == At(O'.Keys, HeldFor(O', f), k) {}
    SumChange(O.Keys, HeldFor(O, f), O'.Keys, HeldFor(O', f), id);
  }

  lemma HeldNonNegative(O: Rows, f: Id)
    ensures HeldSum(O, f) >= 0
  {
    forall k ensures At(O.Keys, HeldFor(O, f), k) >= 0 {}
    SumNonNegative(O.Keys, HeldFor(O, f));
  }

  // A reservation moves the stock by exactly as much as the orders' holdings move.
  lemma ConservedFollows(O: Rows, O': Rows, F: Offers, F': Offers, id: Id, f: Id)
    requires Conserved(O, F) && SameBut(O, O', id) && SameBut(F, F', f) && f in F && f in F'
    requires forall g :: g != f ==> HeldOne(O', g, id) == HeldOne(O, g, id)
    requires F'[f].qty == F[f].qty
    requires F'[f].remaining - F[f].remaining == HeldOne(O, f, id) - HeldOne(O', f, id)
    ensures Conserved(O', F')
  {
    forall g | g in F' ensures ReservedRight(O', F', g) {
      assert ReservedRight(O, F, g);
      HeldChange(O, O', g, id);
    }
  }

  // The row changes but holds what it held.
  lemma ConservedStays(O: Rows, O': Rows, F: Offers, id: Id)
    requires Conserved(O, F) && SameBut(O, O', id)
    requires forall g :: HeldOne(O', g, id) == HeldOne(O, g, id)
    ensures Conserved(O', F)
  {
    forall g | g in F ensures ReservedRight(O', F, g) {
      assert ReservedRight(O, F, g);
      HeldChange(O, O', g, id);
    }
  }

  lemma RestockedOk(x: Offer, delta: int)
    requires StockOk(x) && Restocked(x, delta).Success? && Restocked(x, delta).value.remaining <= x.qty
    ensures StockOk(Restocked(x, delta).value) && SameLot(x, Restocked(x, delta).value)
  {}

  // One order's row changes, and with it perhaps one offer's stock.
  lemma RowChangeKeeps(cfg: Config, P: Positions, L: Listings, O: Rows, F: Offers, F': Offers, Q: multiset<Pending>,
                       id: Id, o: OrderRow)
    requires Linked(cfg, P, L, O, F, Q) && OffersGrow(F, F')
    requires RowKept(O, O[id := o], id) && RowOk(o, F') && ProgressOk(cfg, o, id, P)
    requires OffersOk(cfg, F', L) && Conserved(O[id := o], F')
    ensures Linked(cfg, P, L, O[id := o], F', Q)
  {
    var O' := O[id := o];
    forall x ensures RowKept(O, O', x) {}
    forall x | x in O' ensures RowOk(O'[x], F') {
      if x != id {
        assert RowOk(O[x], F) && OfferKept(F, F', O[x].offer);
      }
    }
    forall x | x in O' ensures ProgressOk(cfg, O'[x], x, P) {
      if x != id {
        assert ProgressOk(cfg, O[x], x, P);
      }
    }
    NothingGrows(L, O, F, P);
    PendingsGrow(cfg, Q, Q, P, P, L, L, O, O', F, F');
  }

  lemma AdvancedProgress(cfg: Config, o: OrderRow, a: Advance, out: Action, id: Id, P: Positions)
    requires TickReady(o) && Sent(o, a) && Advanced(o, a).Success? && ProgressOk(cfg, o, id, P)
    requires out == ReleaseAction ==> IsReleased(P, id)
    requires a.ev == EvBind ==> BoundRight(cfg, o, id, P)
    ensures ProgressOk(cfg, Recorded(Advanced(o, a).value, out), id, P)
  {
    ApplyExactly(StandingOf(o), a.ev, a.actor, a.dst);
    CallIsSent(o, a);
    if o.kind == OTCTake {
      LegalFlow(o.state, a.ev, a.actor, a.dst);
    }
  }

  // An open order is counted, and stops being so exactly when the call gives its reservation back.
  lemma AdvancedCounted(o: OrderRow, a: Advance, out: Action)
    requires TickReady(o) && CountedRight(o) && Sent(o, a) && Advanced(o, a).Success?
    ensures o.counted && SameDeal(o, Recorded(Advanced(o, a).value, out))
    ensures CountedRight(Recorded(Advanced(o, a).value, out))
    ensures Recorded(Advanced(o, a).value, out).counted <==> a.extra != ReturnReservation
  {
    ApplyExactly(StandingOf(o), a.ev, a.actor, a.dst);
    CallIsSent(o, a);
  }

  // Stock that is conserved is never more than the lot.
  lemma RestockKeepsOffers(cfg: Config, O: Rows, F: Offers, L: Listings, f: Id, delta: int)
    requires OffersOk(cfg, F, L) && ReserveQty(F, f, delta).Success?
    requires Conserved(O, ReserveQty(F, f, delta).value)
    ensures OffersOk(cfg, ReserveQty(F, f, delta).value, L) && OffersGrow(F, ReserveQty(F, f, delta).value)
  {
    var F' := ReserveQty(F, f, delta).value;
    assert OfferOk(cfg, F[f], f, L);
    assert ReservedRight(O, F', f);
    HeldNonNegative(O, f);
    RestockedOk(F[f], delta);
    forall g | g in F' ensures OfferOk(cfg, F'[g], g, L) {
      if g != f { assert OfferOk(cfg, F[g], g, L); }
    }
    forall g ensures OfferKept(F, F', g) {}
  }

  lemma AdvanceStored(cfg: Config, P: Positions, L: Listings, O: Rows, F: Offers, Q: multiset<Pending>,
                      id: Id, a: Advance, out: Action)
    requires Linked(cfg, P, L, O, F, Q) && PendingOk(cfg, AdvancePending(id, a, out), P, L, O, F)
    requires StoreAdvance(F, O, id, a, out).Success?
    ensures var (F', O') := StoreAdvance(F, O, id, a, out).value; Linked(cfg, P, L, O', F', Q)
  {
    var o, o' := O[id], Recorded(Advanced(O[id], a).value, out);
    var (F', O') := StoreAdvance(F, O, id, a, out).value;
    assert RowOk(o, F) && ProgressOk(cfg, o, id, P);
    AdvancedKeepsReady(o, a);
    AdvancedProgress(cfg, o, a, out, id, P);
    AdvancedCounted(o, a, out);
    if a.extra == ReturnReservation && o.kind == OTCTake {
      ConservedFollows(O, O', F, F', id, o.offer);
      RestockKeepsOffers(cfg, O', F, L, o.offer, o.amount);
      assert OfferKept(F, F', o.offer);
    } else {
      ConservedStays(O, O', F, id);
      NothingGrows(L, O, F, P);
    }
    RowChangeKeeps(cfg, P, L, O, F, F', Q, id, o');
  }

  // A ruling completes or cancels a dispute and never touches the reservation.
  lemma RuledRow(o: OrderRow, release: bool, out: Action)
    requires TickReady(o) && CountedRight(o) && Orders.Ruled(o, release).Success?
    ensures var o' := Recorded(Orders.Ruled(o, release).value, out);
      && TickReady(o') && CountedRight(o') && SameDeal(o, o') && o.counted && o'.counted
      && (o'.terminal == TermCompleted <==> release) && PastFunding(o.state)
  {}

  lemma RulingStored(cfg: Config, P: Positions, L: Listings, O: Rows, F: Offers, Q: multiset<Pending>,
                     id: Id, release: bool, out: Action)
    requires Linked(cfg, P, L, O, F, Q) && PendingOk(cfg, RulingPending(id, release, out), P, L, O, F)
    requires StoreRuling(O, id, release, out).Success?
    ensures Linked(cfg, P, L, StoreRuling(O, id, release, out).value, F, Q)
  {
    var o := O[id];
    assert RowOk(o, F) && ProgressOk(cfg, o, id, P);
    RuledRow(o, release, out);
    ConservedStays(O, StoreRuling(O, id, release, out).value, F, id);
    NothingGrows(L, O, F, P);
    RowChangeKeeps(cfg, P, L, O, F, F, Q, id, Recorded(Orders.Ruled(o, release).value, out));
  }

  lemma FundingStored(cfg: Config, P: Positions, L: Listings, O: Rows, F: Offers, Q: multiset<Pending>, id: Id)
    requires Linked(cfg, P, L, O, F, Q) && PendingOk(cfg, FundingPending(id), P, L, O, F)
    ensures Linked(cfg, P, L, O[id := O[id].(fundingVia := true)], F, Q)
  {
    var o := O[id];
    assert RowOk(o, F) && ProgressOk(cfg, o, id, P);
    ConservedStays(O, O[id := o.(fundingVia := true)], F, id);
    NothingGrows(L, O, F, P);
    RowChangeKeeps(cfg, P, L, O, F, F, Q, id, o.(fundingVia := true));
  }

  lemma TakeStored(cfg: Config, P: Positions, L: Listings, O: Rows, F: Offers, Q: multiset<Pending>, id: Id,
                   o: OrderRow)
    requires Linked(cfg, P, L, O, F, Q) && PendingOk(cfg, TakePending(id, o), P, L, O, F)
    requires StoreTake(F, O, id, o).Success?
    ensures var (F', O') := StoreTake(F, O, id, o).value; Linked(cfg, P, L, O', F', Q)
  {
    var (F', O') := StoreTake(F, O, id, o).value;
    ConservedFollows(O, O', F, F', id, o.offer);
    RestockKeepsOffers(cfg, O', F, L, o.offer, 0 - o.amount);
    assert OfferKept(F, F', o.offer);
    RowChangeKeeps(cfg, P, L, O, F, F', Q, id, o);
  }

  // Nobody holds anything of an offer that does not exist yet.
  lemma NothingHeldYet(O: Rows, F: Offers, f: Id)
    requires RowsOk(O, F) && f !in F
    ensures HeldSum(O, f) == 0
  {
    forall k ensures At(O.Keys, HeldFor(O, f), k) == 0 {
      if k in O { assert RowOk(O[k], F); }
    }
    SumVanishes(O.Keys, HeldFor(O, f));
  }

  lemma OfferStored(cfg: Config, P: Positions, L: Listings, O: Rows, F: Offers, Q: multiset<Pending>, f: Id, x: Offer)
    requires Linked(cfg, P, L, O, F, Q) && PendingOk(cfg, OfferPending(f, x), P, L, O, F) && f !in F
    ensures Linked(cfg, P, L, O, F[f := x], Q)
  {
    var F' := F[f := x];
    forall g ensures OfferKept(F, F', g) {}
    NothingHeldYet(O, F, f);
    forall g | g in F' ensures ReservedRight(O, F', g) {
      if g != f { assert ReservedRight(O, F, g); }
    }
    LotsChange(cfg, P, L, O, F, F', Q, f);
  }

  lemma OfferDelisted(cfg: Config, P: Positions, L: Listings, O: Rows, F: Offers, Q: multiset<Pending>, f: Id)
    requires Linked(cfg, P, L, O, F, Q) && f in F
    ensures Linked(cfg, P, L, O, F[f := F[f].(status := Delisted)], Q)
  {
    var F' := F[f := F[f].(status := Delisted)];
    assert OfferOk(cfg, F[f], f, L);
    forall g ensures OfferKept(F, F', g) {}
    forall g | g in F' ensures ReservedRight(O, F', g) {
      assert ReservedRight(O, F, g);
    }
    LotsChange(cfg, P, L, O, F, F', Q, f);
  }

  lemma LotsChange(cfg: Config, P: Positions, L: Listings, O: Rows, F: Offers, F': Offers, Q: multiset<Pending>, f: Id)
    requires Linked(cfg, P, L, O, F, Q) && SameBut(F, F', f) && OffersGrow(F, F')
    requires f in F' && OfferOk(cfg, F'[f], f, L) && Conserved(O, F')
    ensures Linked(cfg, P, L, O, F', Q)
  {
    forall g | g in F' ensures OfferOk(cfg, F'[g], g, L) {
      if g != f { assert OfferOk(cfg, F[g], g, L); }
    }
    forall id | id in O ensures RowOk(O[id], F') {
      assert RowOk(O[id], F) && OfferKept(F, F', O[id].offer);
    }
    NothingGrows(L, O, F, P);
    PendingsGrow(cfg, Q, Q, P, P, L, L, O, O, F, F');
  }

  lemma StoreKeeps(cfg: Config, P: Positions, L: Listings, O: Rows, F: Offers, Q: multiset<Pending>, p: Pending)
    requires Linked(cfg, P, L, O, F, Q) && PendingOk(cfg, p, P, L, O, F) && Store(F, O, p).Success?
    ensures var (F', O') := Store(F, O, p).value; Linked(cfg, P, L, O', F', Q)
  {
    match p
    case AdvancePending(id, a, out) => AdvanceStored(cfg, P, L, O, F, Q, id, a, out);
    case RulingPending(id, release, out) => RulingStored(cfg, P, L, O, F, Q, id, release, out);
    case OfferPending(f, x) => OfferStored(cfg, P, L, O, F, Q, f, x);
    case TakePending(id, o) => TakeStored(cfg, P, L, O, F, Q, id, o);
    case FundingPending(id) => FundingStored(cfg, P, L, O, F, Q, id);
  }

  lemma CommitKeeps(cfg: Config, w: World, p: Pending)
    requires WorldOk(cfg, w) && p in w.pending
    ensures WorldOk(cfg, CommitCall(w, p))
  {
    PendingDropped(cfg, w, p);
    var c := w.chain;
    assert PendingOk(cfg, p, c.positions, c.listings, w.orders, w.offers);
    if Store(w.offers, w.orders, p).Success? {
      StoreKeeps(cfg, c.positions, c.listings, w.orders, w.offers, w.pending - multiset{p}, p);
    }
  }

  lemma ConditionalStored(cfg: Config, P: Positions, L: Listings, O: Rows, F: Offers, Q: multiset<Pending>, id: Id,
                          o: OrderRow)
    requires Linked(cfg, P, L, O, F, Q) && id !in O
    requires o == Conditional(o.owner, o.counterparty, o.asset, o.amount, o.main)
    ensures Linked(cfg, P, L, O[id := o], F, Q)
  {
    ConservedStays(O, O[id := o], F, id);
    NothingGrows(L, O, F, P);
    RowChangeKeeps(cfg, P, L, O, F, F, Q, id, o);
  }

  // ── every happening keeps it ──

  lemma HappeningKeeps(cfg: Config, w: World, h: Happening)
    requires WorldOk(cfg, w) && Possible(cfg, w, h)
    ensures WorldOk(cfg, Next(cfg, w, h))
  {
    var c := w.chain;
    match h
    case Others(tx, call) =>
      if Step(cfg.dep, c, tx, call).Success? { ChainMoveKeeps(cfg, w, tx, call); }
    case AdvanceBegins(tx, seal, id, a) =>
      if BeginAdvance(cfg, w, tx, seal, id, a).Success? { BeginAdvanceKeeps(cfg, w, tx, seal, id, a); }
    case RulingBegins(tx, seal, id, release) =>
      if BeginRuling(cfg, w, tx, seal, id, release).Success? { BeginRulingKeeps(cfg, w, tx, seal, id, release); }
    case OfferBegins(f, maker, side, asset, qty) =>
      if BeginOffer(cfg, w, f, maker, side, asset, qty).Success? {
        BeginOfferKeeps(cfg, w, f, maker, side, asset, qty);
      }
    case TakeBegins(id, f, taker, amount) =>
      if BeginTake(w, id, f, taker, amount).Success? { BeginTakeKeeps(cfg, w, id, f, taker, amount); }
    case FundingBegins(id) =>
      if BeginFunding(w, id).Success? { PendingAdded(cfg, w, FundingPending(id)); }
    case ConditionalMade(id, owner, counterparty, asset, amount, main) =>
      if id !in w.orders {
        ConditionalStored(cfg, c.positions, c.listings, w.orders, w.offers, w.pending, id,
                          Conditional(owner, counterparty, asset, amount, main));
      }
    case OfferDelisted(f) =>
      if f in w.offers { OfferDelisted(cfg, c.positions, c.listings, w.orders, w.offers, w.pending, f); }
    case Commits(p) => CommitKeeps(cfg, w, p);
    case Crashes(p) => PendingDropped(cfg, w, p);
  }

  lemma {:induction false} RunKeepsWorld(cfg: Config, w: World, run: seq<Happening>)
    requires WorldOk(cfg, w) && AllPossible(cfg, w, run)
    ensures WorldOk(cfg, Later(cfg, w, run))
    decreases |run|
  {
    if run != [] {
      HappeningKeeps(cfg, w, run[0]);
      RunKeepsWorld(cfg, Next(cfg, w, run[0]), run[1..]);
    }
  }

  lemma EmptyIsOk(cfg: Config, tx: Tx, signers: seq<Address>, threshold: nat, minScore: nat, T: Ledgers)
    requires FreshTokens(cfg.dep.self, T) && Deploy(cfg.dep, tx, signers, threshold, minScore, T).Success?
    ensures WorldOk(cfg, Empty(Deploy(cfg.dep, tx, signers, threshold, minScore, T).value))
  {
    DeployEstablishes(cfg.dep, tx, signers, threshold, minScore, T);
  }
}
