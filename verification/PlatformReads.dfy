// The reads a call goes on without: what each one costs, one call at a time and over every run.
module PlatformReads {
  import opened Results
  import opened Sums
  import opened Erc20
  import opened EscrowModel
  import opened EscrowBooks
  import opened EscrowTheorems
  import opened OrderMachine
  import opened Orders
  import opened Platform
  import opened PlatformBooks
  import opened PlatformTheorems
  import opened PlatformCauses

  // ── one call ──

  // A call that completes an order leaves its position released exactly when the payee it read has an
  // address, or when the position had been released before. Otherwise it completes the order all the same.
  lemma CompletingPaysExactly(cfg: Config, w: World, tx: Tx, seal: Seal, id: Id, a: Advance)
    requires WorldOk(cfg, w) && Serves(w.orders, id, a)
    requires BeginAdvance(cfg, w, tx, seal, id, a).Success? && TerminalOf(a.dst) == TermCompleted
    ensures IsReleased(BeginAdvance(cfg, w, tx, seal, id, a).value.chain.positions, id)
            <==> PayeeRead(cfg, w.orders[id], seal) != 0 || IsReleased(w.chain.positions, id)
  {
    CallIsSent(w.orders[id], a);
    SettleBegins(cfg, w, tx, seal, id, a);
    SettlePaysExactly(cfg, w.chain, tx, seal, id, w.orders[id], a.score);
  }

  // The call as it waits for its commit.
  function PendingOf(cfg: Config, w: World, seal: Seal, id: Id, a: Advance): Pending
    requires id in w.orders
  {
    var o := w.orders[id];
    AdvancePending(id, Carried(o, a, seal),
                   if a.ev == EvBind then BindAction
                   else ActionName(SettleCall(cfg, w.chain, id, o, TerminalOf(a.dst), a.score, seal)))
  }

  lemma PendingIsOf(cfg: Config, w: World, tx: Tx, seal: Seal, id: Id, a: Advance)
    requires BeginAdvance(cfg, w, tx, seal, id, a).Success?
    ensures var begun := BeginAdvance(cfg, w, tx, seal, id, a).value;
      begun == w.(chain := begun.chain, pending := w.pending + multiset{PendingOf(cfg, w, seal, id, a)})
  {
    if a.ev == EvBind {
      BindBegins(cfg, w, tx, seal, id, a);
    } else {
      SettleBegins(cfg, w, tx, seal, id, a);
    }
  }

  // A call that ends an OTC order as cancelled or expired gives its amount back to the offer exactly when
  // it could read the order's terms. Otherwise it ends the order all the same and the amount is lost to
  // the offer for good.
  lemma ReturningRestocksExactly(cfg: Config, w: World, tx: Tx, seal: Seal, id: Id, a: Advance)
    requires WorldOk(cfg, w) && Sendable(cfg.dep, tx) && Serves(w.orders, id, a)
    requires BeginAdvance(cfg, w, tx, seal, id, a).Success? && a.extra == ReturnReservation
    requires w.orders[id].kind == OTCTake
    ensures var o := w.orders[id];
      var w' := CommitCall(BeginAdvance(cfg, w, tx, seal, id, a).value, PendingOf(cfg, w, seal, id, a));
      && id in w'.orders && SameDeal(o, w'.orders[id]) && w'.orders[id].terminal == TerminalOf(a.dst)
      && o.offer in w.offers && o.offer in w'.offers
      && w'.offers[o.offer].remaining == w.offers[o.offer].remaining + (if seal.termsRead then o.amount else 0)
      && (w'.orders[id].counted <==> !seal.termsRead)
  {
    var o := w.orders[id];
    CallIsSent(o, a);
    SettleBegins(cfg, w, tx, seal, id, a);
    CarriedIsSent(o, a, seal);
    assert RowOk(o, w.offers);
    var begun := BeginAdvance(cfg, w, tx, seal, id, a).value;
    ReturnCommits(begun, id, Carried(o, a, seal), PendingOf(cfg, w, seal, id, a).out);
  }

  lemma ReturnCommits(w: World, id: Id, a: Advance, out: Action)
    requires id in w.orders && w.orders[id].kind == OTCTake && w.orders[id].terminal == TermNone
    requires RowOk(w.orders[id], w.offers) && Sent(w.orders[id], a)
    requires Legal(OTCTake, w.orders[id].state, a.ev, a.actor, a.dst)
    requires a.extra == ReturnReservation || a.extra == Nothing
    ensures var o, w' := w.orders[id], CommitCall(w, AdvancePending(id, a, out));
      && w'.chain == w.chain && id in w'.orders && SameDeal(o, w'.orders[id])
      && w'.orders[id].terminal == TerminalOf(a.dst) && w'.orders.Keys == w.orders.Keys
      && (if a.extra == ReturnReservation then ReserveQty(w.offers, o.offer, o.amount) == Success(w'.offers)
          else w'.offers == w.offers)
      && (w'.orders[id].counted <==> a.extra != ReturnReservation)
  {
    ApplyExactly(StandingOf(w.orders[id]), a.ev, a.actor, a.dst);
    AdvancedCounted(w.orders[id], a, out);
  }

  // ── every run: completed orders ──

  // A completed order has been paid, unless it is one of `unpaid`.
  predicate RowPaid(o: OrderRow, id: Id, P: Positions, unpaid: set<Id>) {
    o.terminal == TermCompleted ==> IsReleased(P, id) || id in unpaid
  }

  predicate PendingPaid(p: Pending, P: Positions, unpaid: set<Id>) {
    match p
    case AdvancePending(id, a, _) => TerminalOf(a.dst) == TermCompleted ==> IsReleased(P, id) || id in unpaid
    case RulingPending(id, release, _) => release ==> IsReleased(P, id) || id in unpaid
    case TakePending(_, o) => o.terminal == TermNone
    case _ => true
  }

  ghost predicate AllPaid(P: Positions, O: Rows, Q: multiset<Pending>, unpaid: set<Id>) {
    && (forall id {:trigger RowPaid(O[id], id, P, unpaid)} :: id in O ==> RowPaid(O[id], id, P, unpaid))
    && (forall p {:trigger PendingPaid(p, P, unpaid)} :: p in Q ==> PendingPaid(p, P, unpaid))
  }

  ghost predicate WorldPaid(w: World, unpaid: set<Id>) {
    AllPaid(w.chain.positions, w.orders, w.pending, unpaid)
  }

  lemma PaidFollows(P: Positions, P': Positions, O: Rows, Q: multiset<Pending>, unpaid: set<Id>, unpaid': set<Id>)
    requires AllPaid(P, O, Q, unpaid) && PositionsKept(P, P') && unpaid <= unpaid'
    ensures AllPaid(P', O, Q, unpaid')
  {
    forall id | id in O ensures RowPaid(O[id], id, P', unpaid') {
      assert RowPaid(O[id], id, P, unpaid) && Kept(P, P', id);
    }
    forall p | p in Q ensures PendingPaid(p, P', unpaid') {
      assert PendingPaid(p, P, unpaid);
      if p.AdvancePending? || p.RulingPending? {
        assert Kept(P, P', p.id);
      }
    }
  }

  lemma PendingPaidAdded(P: Positions, O: Rows, Q: multiset<Pending>, unpaid: set<Id>, p: Pending)
    requires AllPaid(P, O, Q, unpaid) && PendingPaid(p, P, unpaid)
    ensures AllPaid(P, O, Q + multiset{p}, unpaid)
  {
    forall q | q in Q + multiset{p} ensures PendingPaid(q, P, unpaid) {
      if q != p { assert q in Q; }
    }
  }

  lemma RowPaidStored(P: Positions, O: Rows, Q: multiset<Pending>, Q': multiset<Pending>, id: Id, o: OrderRow,
                      unpaid: set<Id>)
    requires AllPaid(P, O, Q, unpaid) && RowPaid(o, id, P, unpaid) && forall p :: p in Q' ==> p in Q
    ensures AllPaid(P, O[id := o], Q', unpaid)
  {
    var O' := O[id := o];
    forall x | x in O' ensures RowPaid(O'[x], x, P, unpaid) {
      if x != id { assert RowPaid(O[x], x, P, unpaid); }
    }
    forall p | p in Q' ensures PendingPaid(p, P, unpaid) {
      assert PendingPaid(p, P, unpaid);
    }
  }

  lemma ActKeepsPositions(cfg: Config, c: State, tx: Tx, call: Option<Call>)
    requires Inv(cfg.dep, c) && Act(cfg, c, tx, call).Success?
    ensures PositionsKept(c.positions, Act(cfg, c, tx, call).value.positions)
  {
    if call.Some? {
      StepGrows(cfg.dep, c, tx, call.value);
    }
  }

  lemma SettledCallPaid(cfg: Config, w: World, tx: Tx, call: Option<Call>, p: Pending, unpaid: set<Id>,
                        unpaid': set<Id>)
    requires Inv(cfg.dep, w.chain) && WorldPaid(w, unpaid) && unpaid <= unpaid' && Act(cfg, w.chain, tx, call).Success?
    requires PendingPaid(p, Act(cfg, w.chain, tx, call).value.positions, unpaid')
    ensures WorldPaid(w.(chain := Act(cfg, w.chain, tx, call).value, pending := w.pending + multiset{p}), unpaid')
  {
    var P' := Act(cfg, w.chain, tx, call).value.positions;
    ActKeepsPositions(cfg, w.chain, tx, call);
    PaidFollows(w.chain.positions, P', w.orders, w.pending, unpaid, unpaid');
    PendingPaidAdded(P', w.orders, w.pending, unpaid', p);
  }

  lemma AdvanceTakenUpPaid(cfg: Config, w: World, tx: Tx, seal: Seal, id: Id, a: Advance,
                           unpaid: set<Id>, unpaid': set<Id>)
    requires Inv(cfg.dep, w.chain) && WorldPaid(w, unpaid) && unpaid <= unpaid' && Serves(w.orders, id, a)
    requires BeginAdvance(cfg, w, tx, seal, id, a).Success?
    requires AdvanceCauses(cfg, w, seal, id, a, PayeeUnread) ==> id in unpaid'
    ensures WorldPaid(BeginAdvance(cfg, w, tx, seal, id, a).value, unpaid')
  {
    var o := w.orders[id];
    CallIsSent(o, a);
    if a.ev == EvBind {
      BindBegins(cfg, w, tx, seal, id, a);
      SettledCallPaid(cfg, w, tx, Some(BindOf(cfg, id, o, seal)), AdvancePending(id, a, BindAction), unpaid, unpaid');
    } else {
      SettleBegins(cfg, w, tx, seal, id, a);
      var call := SettleCall(cfg, w.chain, id, o, TerminalOf(a.dst), a.score, seal);
      if TerminalOf(a.dst) == TermCompleted {
        SettlePaysExactly(cfg, w.chain, tx, seal, id, o, a.score);
      }
      SettledCallPaid(cfg, w, tx, call, AdvancePending(id, Carried(o, a, seal), ActionName(call)), unpaid, unpaid');
    }
  }

  lemma RulingTakenUpPaid(cfg: Config, w: World, tx: Tx, seal: Seal, id: Id, release: bool,
                          unpaid: set<Id>, unpaid': set<Id>)
    requires Inv(cfg.dep, w.chain) && WorldPaid(w, unpaid) && unpaid <= unpaid'
    requires BeginRuling(cfg, w, tx, seal, id, release).Success?
    requires PaysNobody(cfg, w, id, RulingTerm(release), seal) ==> id in unpaid'
    ensures WorldPaid(BeginRuling(cfg, w, tx, seal, id, release).value, unpaid')
  {
    var call := SettleCall(cfg, w.chain, id, w.orders[id], RulingTerm(release), 0, seal);
    if release {
      SettlePaysExactly(cfg, w.chain, tx, seal, id, w.orders[id], 0);
    }
    SettledCallPaid(cfg, w, tx, call, RulingPending(id, release, ActionName(call)), unpaid, unpaid');
  }

  lemma StoredPaid(w: World, p: Pending, unpaid: set<Id>)
    requires WorldPaid(w, unpaid) && p in w.pending
    ensures WorldPaid(CommitCall(w, p), unpaid)
  {
    var P, O, Q := w.chain.positions, w.orders, w.pending - multiset{p};
    assert PendingPaid(p, P, unpaid);
    if Store(w.offers, O, p).Success? {
      match p
      case AdvancePending(id, a, out) =>
        ApplyExactly(StandingOf(O[id]), a.ev, a.actor, a.dst);
        RowPaidStored(P, O, w.pending, Q, id, Recorded(Advanced(O[id], a).value, out), unpaid);
      case RulingPending(id, release, out) =>
        RowPaidStored(P, O, w.pending, Q, id, Recorded(Orders.Ruled(O[id], release).value, out), unpaid);
      case TakePending(id, o) => RowPaidStored(P, O, w.pending, Q, id, o, unpaid);
      case FundingPending(id) =>
        assert RowPaid(O[id], id, P, unpaid);
        RowPaidStored(P, O, w.pending, Q, id, O[id].(fundingVia := true), unpaid);
      case OfferPending(_, _) =>
    }
  }

  lemma QuietlyPaid(cfg: Config, w: World, h: Happening, unpaid: set<Id>)
    requires WorldPaid(w, unpaid)
    requires h.OfferBegins? || h.TakeBegins? || h.FundingBegins? || h.ConditionalMade? || h.OfferDelisted? || h.Crashes?
    ensures WorldPaid(Next(cfg, w, h), unpaid)
  {
    var P, O, Q := w.chain.positions, w.orders, w.pending;
    match h
    case OfferBegins(f, maker, side, asset, qty) =>
      if BeginOffer(cfg, w, f, maker, side, asset, qty).Success? {
        PendingPaidAdded(P, O, Q, unpaid, OfferPending(f, Offer(maker, side, asset, qty, qty, Active)));
      }
    case TakeBegins(id, f, taker, amount) =>
      if BeginTake(w, id, f, taker, amount).Success? {
        PendingPaidAdded(P, O, Q, unpaid, TakePending(id, Taken(f, w.offers[f], taker, amount)));
      }
    case FundingBegins(id) =>
      if BeginFunding(w, id).Success? { PendingPaidAdded(P, O, Q, unpaid, FundingPending(id)); }
    case ConditionalMade(id, owner, counterparty, asset, amount, main) =>
      if id !in O { RowPaidStored(P, O, Q, Q, id, Conditional(owner, counterparty, asset, amount, main), unpaid); }
    case _ =>
  }

  lemma HappeningPaid(cfg: Config, w: World, h: Happening, unpaid: set<Id>)
    requires WorldOk(cfg, w) && Possible(cfg, w, h) && WorldPaid(w, unpaid)
    ensures WorldPaid(Next(cfg, w, h), unpaid + CausedBy(cfg, w, h, PayeeUnread))
  {
    var P, O, Q, unpaid' := w.chain.positions, w.orders, w.pending, unpaid + CausedBy(cfg, w, h, PayeeUnread);
    NothingGrows(w.chain.listings, O, w.offers, P);
    PaidFollows(P, P, O, Q, unpaid, unpaid');
    match h
    case Others(tx, call) =>
      if Step(cfg.dep, w.chain, tx, call).Success? {
        ActKeepsPositions(cfg, w.chain, tx, Some(call));
        PaidFollows(P, Step(cfg.dep, w.chain, tx, call).value.positions, O, Q, unpaid', unpaid');
      }
    case AdvanceBegins(tx, seal, id, a) =>
      if BeginAdvance(cfg, w, tx, seal, id, a).Success? {
        AdvanceTakenUpPaid(cfg, w, tx, seal, id, a, unpaid', unpaid');
      }
    case RulingBegins(tx, seal, id, release) =>
      if BeginRuling(cfg, w, tx, seal, id, release).Success? {
        RulingTakenUpPaid(cfg, w, tx, seal, id, release, unpaid', unpaid');
      }
    case Commits(p) => StoredPaid(w, p, unpaid');
    case _ => QuietlyPaid(cfg, w, h, unpaid');
  }

  lemma {:induction false} RunPaid(cfg: Config, w: World, run: seq<Happening>, unpaid: set<Id>)
    requires WorldOk(cfg, w) && AllPossible(cfg, w, run) && WorldPaid(w, unpaid)
    ensures WorldPaid(Later(cfg, w, run), unpaid + Caused(cfg, w, run, PayeeUnread))
    decreases |run|
  {
    if run == [] {
      assert unpaid + {} == unpaid;
    } else {
      var w', unpaid' := Next(cfg, w, run[0]), unpaid + CausedBy(cfg, w, run[0], PayeeUnread);
      HappeningKeeps(cfg, w, run[0]);
      HappeningPaid(cfg, w, run[0], unpaid);
      RunPaid(cfg, w', run[1..], unpaid');
      assert unpaid' + Caused(cfg, w', run[1..], PayeeUnread) == unpaid + Caused(cfg, w, run, PayeeUnread);
    }
  }

  // Under any interleaving and crash, and whatever others do and whatever else could not be read: a completed
  // order has had its position released, once, to the position's beneficiary, unless a completion of that very
  // order was begun that could not read whom to pay while it was not yet paid.
  lemma CompletedIsPaid(cfg: Config, w: World, tx: Tx, signers: seq<Address>, threshold: nat, minScore: nat,
                        T: Ledgers, run: seq<Happening>, id: Id)
    requires WorldReachedBy(cfg, w, tx, signers, threshold, minScore, T, run)
    requires id in w.orders && w.orders[id].terminal == TermCompleted
    requires id !in Caused(cfg, Empty(Deploy(cfg.dep, tx, signers, threshold, minScore, T).value), run, PayeeUnread)
    ensures IsReleased(w.chain.positions, id) && Total(w.chain.log, SettlementOf(id)) == 1
    ensures PaidOnLog(w.chain.log, w.chain.positions[id], id)
  {
    var start := Empty(Deploy(cfg.dep, tx, signers, threshold, minScore, T).value);
    EmptyIsOk(cfg, tx, signers, threshold, minScore, T);
    RunPaid(cfg, start, run, {});
    assert RowPaid(w.orders[id], id, w.chain.positions, {} + Caused(cfg, start, run, PayeeUnread));
    ReachableIsOk(cfg, w);
    ReleasedIsPaid(cfg, w.chain, id);
  }

  // And when a taker bought, it is the taker who was paid, the order's amount, out of that offer's listing.
  lemma CompletedBuyPaidTaker(cfg: Config, w: World, tx: Tx, signers: seq<Address>, threshold: nat, minScore: nat,
                              T: Ledgers, run: seq<Happening>, id: Id)
    requires WorldReachedBy(cfg, w, tx, signers, threshold, minScore, T, run)
    requires id in w.orders && w.orders[id].terminal == TermCompleted
    requires w.orders[id].kind == OTCTake && w.orders[id].side == Buy
    requires id !in Caused(cfg, Empty(Deploy(cfg.dep, tx, signers, threshold, minScore, T).value), run, PayeeUnread)
    ensures var o, P := w.orders[id], w.chain.positions;
      && IsReleased(P, id) && PaidOnLog(w.chain.log, P[id], id)
      && P[id].beneficiary == cfg.addressOf(o.owner) != 0 && P[id].amount == o.amount && P[id].offerId == o.offer
  {
    CompletedIsPaid(cfg, w, tx, signers, threshold, minScore, T, run, id);
    CompletedBuyIsTheTakers(cfg, w, id);
  }

  // ── every run: stock ──

  // The order still stands for part of its offer: it did not end cancelled or expired, or a ruling ended it.
  predicate StandsForStock(o: OrderRow) {
    !((o.terminal == TermCancelled || o.terminal == TermExpired) && o.lastFrom != OrderState.Disputed)
  }

  // An order that was forgotten counts against its offer although it no longer stands for any of it.
  predicate WasForgotten(o: OrderRow) {
    o.kind == OTCTake && o.counted && !StandsForStock(o)
  }

  predicate RowRestocked(o: OrderRow, id: Id, forgotten: set<Id>) {
    WasForgotten(o) ==> id in forgotten
  }

  predicate PendingRestocked(p: Pending, O: Rows, forgotten: set<Id>) {
    match p
    case AdvancePending(id, a, _) => id in O && (Issued(O[id], a) || id in forgotten)
    case TakePending(_, o) => StandsForStock(o)
    case _ => true
  }

  ghost predicate AllRestocked(O: Rows, Q: multiset<Pending>, forgotten: set<Id>) {
    && (forall id {:trigger RowRestocked(O[id], id, forgotten)} :: id in O ==> RowRestocked(O[id], id, forgotten))
    && (forall p {:trigger PendingRestocked(p, O, forgotten)} :: p in Q ==> PendingRestocked(p, O, forgotten))
  }

  ghost predicate WorldRestocked(w: World, forgotten: set<Id>) {
    AllRestocked(w.orders, w.pending, forgotten)
  }

  lemma MoreForgotten(O: Rows, Q: multiset<Pending>, forgotten: set<Id>, forgotten': set<Id>)
    requires AllRestocked(O, Q, forgotten) && forgotten <= forgotten'
    ensures AllRestocked(O, Q, forgotten')
  {
    forall id | id in O ensures RowRestocked(O[id], id, forgotten') {
      assert RowRestocked(O[id], id, forgotten);
    }
    forall p | p in Q ensures PendingRestocked(p, O, forgotten') {
      assert PendingRestocked(p, O, forgotten);
    }
  }

  lemma PendingRestockedAdded(O: Rows, Q: multiset<Pending>, forgotten: set<Id>, p: Pending)
    requires AllRestocked(O, Q, forgotten) && PendingRestocked(p, O, forgotten)
    ensures AllRestocked(O, Q + multiset{p}, forgotten)
  {
    forall q | q in Q + multiset{p} ensures PendingRestocked(q, O, forgotten) {
      if q != p { assert q in Q; }
    }
  }

  lemma RowRestockedStored(O: Rows, Q: multiset<Pending>, Q': multiset<Pending>, id: Id, o: OrderRow,
                           forgotten: set<Id>)
    requires AllRestocked(O, Q, forgotten) && RowRestocked(o, id, forgotten)
    requires (forall p :: p in Q' ==> p in Q) && RowKept(O, O[id := o], id)
    ensures AllRestocked(O[id := o], Q', forgotten)
  {
    var O' := O[id := o];
    forall x | x in O' ensures RowRestocked(O'[x], x, forgotten) {
      if x != id { assert RowRestocked(O[x], x, forgotten); }
    }
    forall p | p in Q' ensures PendingRestocked(p, O', forgotten) {
      assert PendingRestocked(p, O, forgotten);
    }
  }

  // A call that was issued gives back what it no longer stands for.
  lemma IssuedRestocks(o: OrderRow, a: Advance, out: Action)
    requires TickReady(o) && CountedRight(o) && Issued(o, a) && Advanced(o, a).Success?
    ensures !WasForgotten(Recorded(Advanced(o, a).value, out))
  {
    ApplyExactly(StandingOf(o), a.ev, a.actor, a.dst);
    CallIsIssued(o, a);
  }

  lemma AdvanceStoredRestocked(cfg: Config, w: World, Q: multiset<Pending>, id: Id, a: Advance, out: Action,
                               forgotten: set<Id>)
    requires WorldOk(cfg, w) && WorldRestocked(w, forgotten)
    requires AdvancePending(id, a, out) in w.pending && Store(w.offers, w.orders, AdvancePending(id, a, out)).Success?
    requires forall p :: p in Q ==> p in w.pending
    ensures AllRestocked(Store(w.offers, w.orders, AdvancePending(id, a, out)).value.1, Q, forgotten)
  {
    var O, p := w.orders, AdvancePending(id, a, out);
    assert PendingRestocked(p, O, forgotten) && RowOk(O[id], w.offers);
    if id !in forgotten {
      IssuedRestocks(O[id], a, out);
    }
    RowRestockedStored(O, w.pending, Q, id, Recorded(Advanced(O[id], a).value, out), forgotten);
  }

  lemma StoredRestocked(cfg: Config, w: World, p: Pending, forgotten: set<Id>)
    requires WorldOk(cfg, w) && p in w.pending && WorldRestocked(w, forgotten)
    ensures WorldRestocked(CommitCall(w, p), forgotten)
  {
    var O, Q := w.orders, w.pending - multiset{p};
    assert PendingRestocked(p, O, forgotten);
    if Store(w.offers, O, p).Success? {
      match p
      case AdvancePending(id, a, out) => AdvanceStoredRestocked(cfg, w, Q, id, a, out, forgotten);
      case RulingPending(id, release, out) =>
        assert RowOk(O[id], w.offers);
        RuledRow(O[id], release, out);
        RowRestockedStored(O, w.pending, Q, id, Recorded(Orders.Ruled(O[id], release).value, out), forgotten);
      case TakePending(id, o) => RowRestockedStored(O, w.pending, Q, id, o, forgotten);
      case FundingPending(id) =>
        assert RowRestocked(O[id], id, forgotten);
        RowRestockedStored(O, w.pending, Q, id, O[id].(fundingVia := true), forgotten);
      case OfferPending(_, _) =>
    }
  }

  lemma AdvanceTakenUpRestocked(cfg: Config, w: World, tx: Tx, seal: Seal, id: Id, a: Advance, forgotten: set<Id>)
    requires WorldRestocked(w, forgotten) && Serves(w.orders, id, a)
    requires BeginAdvance(cfg, w, tx, seal, id, a).Success?
    requires AdvanceCauses(cfg, w, seal, id, a, TermsUnread) ==> id in forgotten
    ensures WorldRestocked(BeginAdvance(cfg, w, tx, seal, id, a).value, forgotten)
  {
    PendingIsOf(cfg, w, tx, seal, id, a);
    PendingRestockedAdded(w.orders, w.pending, forgotten, PendingOf(cfg, w, seal, id, a));
  }

  lemma HappeningRestocked(cfg: Config, w: World, h: Happening, forgotten: set<Id>)
    requires WorldOk(cfg, w) && Possible(cfg, w, h) && WorldRestocked(w, forgotten)
    ensures WorldRestocked(Next(cfg, w, h), forgotten + CausedBy(cfg, w, h, TermsUnread))
  {
    var O, Q, forgotten' := w.orders, w.pending, forgotten + CausedBy(cfg, w, h, TermsUnread);
    MoreForgotten(O, Q, forgotten, forgotten');
    match h
    case AdvanceBegins(tx, seal, id, a) =>
      if BeginAdvance(cfg, w, tx, seal, id, a).Success? {
        AdvanceTakenUpRestocked(cfg, w, tx, seal, id, a, forgotten');
      }
    case RulingBegins(tx, seal, id, release) =>
      if BeginRuling(cfg, w, tx, seal, id, release).Success? {
        var call := SettleCall(cfg, w.chain, id, O[id], RulingTerm(release), 0, seal);
        PendingRestockedAdded(O, Q, forgotten', RulingPending(id, release, ActionName(call)));
      }
    case Commits(p) => StoredRestocked(cfg, w, p, forgotten');
    case Others(_, _) =>
    case _ => QuietlyRestocked(cfg, w, h, forgotten');
  }

  lemma QuietlyRestocked(cfg: Config, w: World, h: Happening, forgotten: set<Id>)
    requires WorldRestocked(w, forgotten)
    requires h.OfferBegins? || h.TakeBegins? || h.FundingBegins? || h.ConditionalMade? || h.OfferDelisted? || h.Crashes?
    ensures WorldRestocked(Next(cfg, w, h), forgotten)
  {
    var O, Q := w.orders, w.pending;
    match h
    case OfferBegins(f, maker, side, asset, qty) =>
      if BeginOffer(cfg, w, f, maker, side, asset, qty).Success? {
        PendingRestockedAdded(O, Q, forgotten, OfferPending(f, Offer(maker, side, asset, qty, qty, Active)));
      }
    case TakeBegins(id, f, taker, amount) =>
      if BeginTake(w, id, f, taker, amount).Success? {
        PendingRestockedAdded(O, Q, forgotten, TakePending(id, Taken(f, w.offers[f], taker, amount)));
      }
    case FundingBegins(id) =>
      if BeginFunding(w, id).Success? { PendingRestockedAdded(O, Q, forgotten, FundingPending(id)); }
    case ConditionalMade(id, owner, counterparty, asset, amount, main) =>
      if id !in O { RowRestockedStored(O, Q, Q, id, Conditional(owner, counterparty, asset, amount, main), forgotten); }
    case _ =>
  }

  lemma {:induction false} RunRestocked(cfg: Config, w: World, run: seq<Happening>, forgotten: set<Id>)
    requires WorldOk(cfg, w) && AllPossible(cfg, w, run) && WorldRestocked(w, forgotten)
    ensures WorldRestocked(Later(cfg, w, run), forgotten + Caused(cfg, w, run, TermsUnread))
    decreases |run|
  {
    if run == [] {
      assert forgotten + {} == forgotten;
    } else {
      var w', forgotten' := Next(cfg, w, run[0]), forgotten + CausedBy(cfg, w, run[0], TermsUnread);
      HappeningKeeps(cfg, w, run[0]);
      HappeningRestocked(cfg, w, run[0], forgotten);
      RunRestocked(cfg, w', run[1..], forgotten');
      assert forgotten' + Caused(cfg, w', run[1..], TermsUnread) == forgotten + Caused(cfg, w, run, TermsUnread);
    }
  }

  function StandsOne(O: Rows, f: Id, id: Id): int {
    if id in O && O[id].kind == OTCTake && O[id].offer == f && StandsForStock(O[id]) then O[id].amount else 0
  }

  function ForgottenOne(O: Rows, f: Id, id: Id): int {
    if id in O && O[id].offer == f && WasForgotten(O[id]) then O[id].amount else 0
  }

  function StandsFor(O: Rows, f: Id): nat -> int { (id: nat) => StandsOne(O, f, id) }
  function ForgottenFor(O: Rows, f: Id): nat -> int { (id: nat) => ForgottenOne(O, f, id) }

  // In every run what is left of an offer, plus the amounts of its orders that did not end cancelled or expired
  // by a call, plus what was forgotten by returns that could not read the order's terms, is the whole lot.
  lemma OpenOrdersAndStockAreTheLot(cfg: Config, w: World, tx: Tx, signers: seq<Address>, threshold: nat, minScore: nat,
                                    T: Ledgers, run: seq<Happening>, f: Id)
    requires WorldReachedBy(cfg, w, tx, signers, threshold, minScore, T, run) && f in w.offers
    ensures var forgotten := Caused(cfg, Empty(Deploy(cfg.dep, tx, signers, threshold, minScore, T).value), run,
                                    TermsUnread);
      && w.offers[f].remaining + Sum(w.orders.Keys, StandsFor(w.orders, f)) + Sum(forgotten, ForgottenFor(w.orders, f))
         == w.offers[f].qty
      && Sum(forgotten, ForgottenFor(w.orders, f)) >= 0
  {
    var start := Empty(Deploy(cfg.dep, tx, signers, threshold, minScore, T).value);
    var O, forgotten := w.orders, Caused(cfg, start, run, TermsUnread);
    EmptyIsOk(cfg, tx, signers, threshold, minScore, T);
    RunRestocked(cfg, start, run, {});
    assert {} + forgotten == forgotten;
    ReachableIsOk(cfg, w);
    assert ReservedRight(O, w.offers, f);
    HeldSplits(w, f, forgotten);
    forall k ensures At(forgotten, ForgottenFor(O, f), k) >= 0 {}
    SumNonNegative(forgotten, ForgottenFor(O, f));
  }

  lemma HeldSplits(w: World, f: Id, forgotten: set<Id>)
    requires RowsOk(w.orders, w.offers) && WorldRestocked(w, forgotten)
    ensures HeldSum(w.orders, f)
            == Sum(w.orders.Keys, StandsFor(w.orders, f)) + Sum(forgotten, ForgottenFor(w.orders, f))
  {
    var O := w.orders;
    forall k ensures At(O.Keys, HeldFor(O, f), k) == At(O.Keys, Plus(StandsFor(O, f), ForgottenFor(O, f)), k) {
      if k in O { assert RowOk(O[k], w.offers); }
    }
    SumAgree(O.Keys, HeldFor(O, f), O.Keys, Plus(StandsFor(O, f), ForgottenFor(O, f)));
    SumPlus(O.Keys, StandsFor(O, f), ForgottenFor(O, f));
    forall k ensures At(O.Keys, ForgottenFor(O, f), k) == At(forgotten, ForgottenFor(O, f), k) {
      if k in O { assert RowRestocked(O[k], k, forgotten); }
    }
    SumAgree(O.Keys, ForgottenFor(O, f), forgotten, ForgottenFor(O, f));
  }
}
