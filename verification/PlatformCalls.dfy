// What each service call does to the platform's books, said from outside.
module PlatformCalls {
  import opened Results
  import opened Erc20
  import opened EscrowModel
  import opened OrderMachine
  import opened Orders
  import opened OrderRules
  import opened Platform

  // ── offers and their stock ──

  // Stock comes and goes, and never below nothing. What is on offer with nothing left is filled, and open again
  // with the first that comes back; what was taken down stays down.
  lemma RestockedExactly(x: Offer, delta: int)
    ensures var r := Restocked(x, delta);
      && (r.Success? <==> x.remaining + delta >= 0)
      && (r.Failure? ==> r.error == Oversold)
      && (r.Success? ==>
            && r.value == x.(remaining := r.value.remaining, status := r.value.status)
            && r.value.remaining == x.remaining + delta
            && (r.value.status == Delisted <==> x.status == Delisted)
            && (x.status != Delisted ==> (r.value.status == Filled <==> r.value.remaining == 0)))
  {}

  predicate Down(w: World, f: Id) {
    f in w.offers && w.offers[f].status == Delisted
  }

  // The lock that a sell offer needs on the contract: open, of that very coin, put there by the maker's own
  // wallet, and with as much free in it as is offered.
  predicate HasCover(cfg: Config, chain: State, f: Id, maker: UserId, asset: Address, qty: nat) {
    && f in chain.listings && chain.listings[f].open
    && chain.listings[f].maker == cfg.addressOf(maker) && chain.listings[f].token == asset
    && chain.listings[f].bound + qty <= chain.listings[f].total
  }

  // An offer is taken up exactly once, for something, and a sell offer only with its cover. All of its lot is then
  // to be had.
  lemma OfferExactly(cfg: Config, w: World, f: Id, maker: UserId, side: Side, asset: Address, qty: nat)
    ensures var r := BeginOffer(cfg, w, f, maker, side, asset, qty);
      && (r.Success? <==> qty > 0 && f !in w.offers && (side == Sell ==> HasCover(cfg, w.chain, f, maker, asset, qty)))
      && (r.Success? ==>
            var x := Offer(maker, side, asset, qty, qty, Active);
            r.value == w.(pending := w.pending + multiset{OfferPending(f, x)}))
  {}

  // ── taking ──

  // The row of a new trade: the taker owns it and is on the other side of the maker, for the maker's coin, from
  // the start, with nothing chosen, shown or done yet.
  predicate NewTrade(o: OrderRow, f: Id, x: Offer, taker: UserId, amount: nat) {
    && o.kind == OTCTake && o.owner == taker && o.counterparty == x.maker && o.offer == f
    && o.asset == x.asset && o.amount == amount && o.side != x.side
    && o.state == Match && o.terminal == TermNone
    && !o.fundingVia && o.receipt == None && o.evidence == {} && o.counted
  }

  // An offer can be taken exactly while it is open, by anybody but its maker.
  lemma TakeExactly(w: World, id: Id, f: Id, taker: UserId, amount: nat)
    ensures var r := BeginTake(w, id, f, taker, amount);
      && (r.Success? <==> f in w.offers && w.offers[f].status == Active && w.offers[f].maker != taker)
      && (r.Success? ==>
            exists o :: NewTrade(o, f, w.offers[f], taker, amount)
                        && r.value == w.(pending := w.pending + multiset{TakePending(id, o)}))
  {
    if BeginTake(w, id, f, taker, amount).Success? {
      assert NewTrade(Taken(f, w.offers[f], taker, amount), f, w.offers[f], taker, amount);
    }
  }

  // A take that was begun goes through exactly if there is still so much to be had, and takes it off the offer.
  lemma TakeCommitsExactly(w: World, id: Id, o: OrderRow)
    requires TakePending(id, o) in w.pending
    ensures var w' := CommitCall(w, TakePending(id, o));
      && w'.chain == w.chain && w'.pending == w.pending - multiset{TakePending(id, o)}
      && if id !in w.orders && o.offer in w.offers && o.amount <= w.offers[o.offer].remaining
         then
           && w'.orders == w.orders[id := o] && OnlyStock(w.offers, w'.offers, o.offer)
           && w'.offers[o.offer].remaining == w.offers[o.offer].remaining - o.amount
         else w'.orders == w.orders && w'.offers == w.offers
  {}

  // No offer is different but one, and it only in its stock and its status.
  predicate OnlyStock(F: Offers, F': Offers, f: Id) {
    && f in F && F'.Keys == F.Keys && (forall g :: g in F && g != f ==> F'[g] == F[g])
    && F'[f] == F[f].(remaining := F'[f].remaining, status := F'[f].status)
    && (F'[f].status == Delisted <==> F[f].status == Delisted)
  }

  // Whatever happens, an offer that was taken down stays down.
  lemma StaysDown(cfg: Config, w: World, h: Happening, f: Id)
    requires Down(w, f)
    ensures Down(Next(cfg, w, h), f)
  {
    match h
    case AdvanceBegins(tx, seal, id, a) =>
      if BeginAdvance(cfg, w, tx, seal, id, a).Success? { BeginKeepsOffers(cfg, w, tx, seal, id, a); }
    case Commits(p) => if Store(w.offers, w.orders, p).Success? { StoreKeepsDown(w.offers, w.orders, p, f); }
    case _ =>
  }

  lemma BeginKeepsOffers(cfg: Config, w: World, tx: Tx, seal: Seal, id: Id, a: Advance)
    requires BeginAdvance(cfg, w, tx, seal, id, a).Success?
    ensures BeginAdvance(cfg, w, tx, seal, id, a).value.offers == w.offers
  {}

  lemma StoreKeepsDown(F: Offers, O: Rows, p: Pending, f: Id)
    requires f in F && F[f].status == Delisted && Store(F, O, p).Success?
    ensures f in Store(F, O, p).value.0 && Store(F, O, p).value.0[f].status == Delisted
  {}

  // A delisted offer is taken by nobody, ever again, in any run.
  lemma {:induction false} DelistedForGood(cfg: Config, w: World, run: seq<Happening>, f: Id)
    requires Down(w, f)
    ensures Down(Later(cfg, w, run), f)
    ensures forall id, taker, amount :: BeginTake(Later(cfg, w, run), id, f, taker, amount) == Failure(OfferClosed)
    decreases |run|
  {
    if run != [] {
      StaysDown(cfg, w, run[0], f);
      DelistedForGood(cfg, Next(cfg, w, run[0]), run[1..], f);
    }
  }

  // Taking an offer down leaves the rest of it, and everything else, as it was.
  lemma DelistExactly(cfg: Config, w: World, f: Id)
    ensures var w' := Next(cfg, w, OfferDelisted(f));
      if f in w.offers then w' == w.(offers := w'.offers) && Down(w', f) && OnlyStatus(w.offers, w'.offers, f)
      else w' == w
  {}

  predicate OnlyStatus(F: Offers, F': Offers, f: Id) {
    && f in F && F'.Keys == F.Keys && (forall g :: g in F && g != f ==> F'[g] == F[g])
    && F'[f] == F[f].(status := F'[f].status)
  }

  // ── moving an order ──

  // Who is paid when an order completes: of a conditional one the payee, of a trade the buyer. Whoever could not be
  // read has no address, and a trade whose terms could not be read is taken for one of a taker who buys.
  lemma PayeeIs(cfg: Config, o: OrderRow, seal: Seal)
    ensures var peer := if seal.peerRead then cfg.addressOf(o.counterparty) else 0;
            var own := if seal.ownerRead then cfg.addressOf(o.owner) else 0;
            match o.kind
            case ConditionalTransfer => PayeeRead(cfg, o, seal) == peer
            case OTCTake => PayeeRead(cfg, o, seal) == if seal.termsRead && o.side == Sell then peer else own
  {}

  // How an ending is settled: a completion by a release, if there is anybody to pay; what is called off by a refund,
  // if the contract is seen to hold anything; a dispute, and what is no ending, by nothing. The attestation is for
  // this order, and one signature comes with it.
  lemma SettlesAs(cfg: Config, chain: State, id: Id, o: OrderRow, term: Terminal, score: nat, seal: Seal)
    ensures match SettleCall(cfg, chain, id, o, term, score, seal)
      case Some(ReleaseCall(att, sigs)) =>
        && term == TermCompleted && PayeeRead(cfg, o, seal) != 0 && sigs == [seal.sig]
        && att == Attestation(id, ToRelease, score, seal.nonce, seal.deadline)
      case Some(RefundCall(att, sigs)) =>
        && (term == TermCancelled || term == TermExpired) && HeldThere(chain, id) && seal.positionRead
        && sigs == [seal.sig] && att == Attestation(id, ToRefund, 0, seal.nonce, seal.deadline)
      case Some(_) => false
      case None =>
        && (term == TermCompleted ==> PayeeRead(cfg, o, seal) == 0)
        && (term == TermCancelled || term == TermExpired ==> !HeldThere(chain, id) || !seal.positionRead)
  {}

  predicate HeldThere(chain: State, id: Id) {
    id in chain.positions && chain.positions[id].status == Escrowed
  }

  // What a binding needs to have read, and found on the contract.
  predicate CanBind(cfg: Config, chain: State, o: OrderRow, seal: Seal) {
    && PayeeRead(cfg, o, seal) != 0 && seal.termsRead && o.amount <= MAX_UINT256
    && (o.amount == 0 ||
        (&& o.offer in chain.listings && chain.listings[o.offer].open
         && o.amount <= chain.listings[o.offer].total - chain.listings[o.offer].bound))
  }

  // What a call asks of the contract.
  function AskedOf(cfg: Config, chain: State, id: Id, o: OrderRow, a: Advance, seal: Seal): Option<Call> {
    if a.ev == EvBind && o.amount <= MAX_UINT256
    then Some(BindListingLockCall(id, o.offer, o.amount, PayeeRead(cfg, o, seal)))
    else SettleCall(cfg, chain, id, o, TerminalOf(a.dst), a.score, seal)
  }

  predicate ContractAgrees(cfg: Config, chain: State, tx: Tx, call: Option<Call>) {
    call.None? || Step(cfg.dep, chain, tx, call.value).Success?
  }

  // What waits for the commit: the call, but for the reservation of a trade whose terms could not be read, with the
  // name of what the contract was asked for.
  predicate Waits(p: Pending, id: Id, o: OrderRow, a: Advance, seal: Seal, call: Option<Call>) {
    && p.AdvancePending? && p.id == id && p.a == a.(extra := p.a.extra)
    && p.a.extra == (if o.kind == OTCTake && a.extra == ReturnReservation && !seal.termsRead then Nothing else a.extra)
    && Names(p.out, call)
  }

  predicate Names(out: Action, call: Option<Call>) {
    match out
    case NoAction => call == None
    case BindAction => call.Some? && call.value.BindListingLockCall?
    case ReleaseAction => call.Some? && call.value.ReleaseCall?
    case RefundAction => call.Some? && call.value.RefundCall?
  }

  // A call is taken up exactly if the rules allow it, a binding can be made, and the contract does what is asked of
  // it. Then only the contract has moved, and the call waits for its commit.
  lemma AdvanceExactly(cfg: Config, w: World, tx: Tx, seal: Seal, id: Id, a: Advance)
    requires forall f :: f in w.chain.listings ==> w.chain.listings[f].bound <= w.chain.listings[f].total
    ensures var r := BeginAdvance(cfg, w, tx, seal, id, a);
      && (r.Success? <==>
            && id in w.orders && w.orders[id].terminal == TermNone
            && Allowed(w.orders[id].kind, w.orders[id].state, a.ev, a.actor, a.dst)
            && (a.ev == EvBind ==> CanBind(cfg, w.chain, w.orders[id], seal))
            && ContractAgrees(cfg, w.chain, tx, AskedOf(cfg, w.chain, id, w.orders[id], a, seal)))
      && (r.Success? ==>
            var call := AskedOf(cfg, w.chain, id, w.orders[id], a, seal);
            && r.value.offers == w.offers && r.value.orders == w.orders
            && r.value.chain == (if call.None? then w.chain else Step(cfg.dep, w.chain, tx, call.value).value)
            && exists p :: Waits(p, id, w.orders[id], a, seal, call) && r.value.pending == w.pending + multiset{p})
  {
    if id in w.orders {
      var o := w.orders[id];
      CheckIsAllowed(o.kind, o.state, a.ev, a.actor, a.dst);
      if BeginAdvance(cfg, w, tx, seal, id, a).Success? {
        var call := AskedOf(cfg, w.chain, id, o, a, seal);
        SettlesAs(cfg, w.chain, id, o, TerminalOf(a.dst), a.score, seal);
        assert Waits(AdvancePending(id, Carried(o, a, seal), ActionName(call)), id, o, a, seal, call);
      }
    }
  }

  // A ruling is taken up exactly for a dispute, if the contract does what it asks for, and it offers no score.
  lemma RulingExactly(cfg: Config, w: World, tx: Tx, seal: Seal, id: Id, release: bool)
    ensures var r := BeginRuling(cfg, w, tx, seal, id, release);
            var term := if release then TermCompleted else TermCancelled;
      && (r.Success? <==>
            && id in w.orders && w.orders[id].state == OrderState.Disputed
            && ContractAgrees(cfg, w.chain, tx, SettleCall(cfg, w.chain, id, w.orders[id], term, 0, seal)))
      && (r.Success? ==>
            var call := SettleCall(cfg, w.chain, id, w.orders[id], term, 0, seal);
            && r.value.offers == w.offers && r.value.orders == w.orders
            && r.value.chain == (if call.None? then w.chain else Step(cfg.dep, w.chain, tx, call.value).value)
            && exists out :: Names(out, call)
                             && r.value.pending == w.pending + multiset{RulingPending(id, release, out)})
  {
    if BeginRuling(cfg, w, tx, seal, id, release).Success? {
      var term := if release then TermCompleted else TermCancelled;
      var call := SettleCall(cfg, w.chain, id, w.orders[id], term, 0, seal);
      SettlesAs(cfg, w.chain, id, w.orders[id], term, 0, seal);
      assert Names(ActionName(call), call);
    }
  }

  // ── committing ──

  // The row with what the call has made of it, and the chain action on record beside those before it.
  predicate Written(o: OrderRow, a: Advance, out: Action, o': OrderRow) {
    && o'.evidence == (if out == NoAction then o.evidence else o.evidence + {out})
    && Advanced(o, a) == Success(o'.(evidence := o.evidence))
  }

  // A waiting call is committed exactly if the rules still allow it. Its amount goes back on offer exactly if it
  // carries the reservation of a trade.
  lemma AdvanceCommitsExactly(w: World, id: Id, a: Advance, out: Action)
    requires AdvancePending(id, a, out) in w.pending
    requires id in w.orders && w.orders[id].kind == OTCTake ==> w.orders[id].offer in w.offers
    ensures var w' := CommitCall(w, AdvancePending(id, a, out));
      && w'.chain == w.chain && w'.pending == w.pending - multiset{AdvancePending(id, a, out)}
      && if && id in w.orders && w.orders[id].terminal == TermNone
            && Allowed(w.orders[id].kind, w.orders[id].state, a.ev, a.actor, a.dst)
         then
           var o := w.orders[id];
           && w'.orders.Keys == w.orders.Keys && w'.orders == w.orders[id := w'.orders[id]]
           && Written(o, a, out, w'.orders[id])
           && if a.extra == ReturnReservation && o.kind == OTCTake
              then OnlyStock(w.offers, w'.offers, o.offer)
                   && w'.offers[o.offer].remaining == w.offers[o.offer].remaining + o.amount
              else w'.offers == w.offers
         else w'.orders == w.orders && w'.offers == w.offers
  {
    if id in w.orders {
      var o := w.orders[id];
      ApplyExactly(StandingOf(o), a.ev, a.actor, a.dst);
      LegalExactly(o.kind, o.state, a.ev, a.actor, a.dst);
    }
  }

  // Choosing how to fund is for conditional orders that wait for it and takers who sell, and changes nothing else.
  lemma FundingExactly(w: World, id: Id)
    ensures var r := BeginFunding(w, id);
      && (r.Success? <==>
            && id in w.orders
            && var o := w.orders[id];
               if o.kind == ConditionalTransfer then o.state == Fund else o.side == Sell && o.state == S1)
      && (r.Success? ==> r.value == w.(pending := w.pending + multiset{FundingPending(id)}))
  {}

  lemma FundingCommitsExactly(w: World, id: Id)
    requires FundingPending(id) in w.pending && id in w.orders
    ensures CommitCall(w, FundingPending(id)) ==
            w.(orders := w.orders[id := w.orders[id].(fundingVia := true)],
               pending := w.pending - multiset{FundingPending(id)})
  {}

  // A conditional order starts unfunded, in fund, and is nobody's trade.
  lemma ConditionalStarts(cfg: Config, w: World, id: Id, owner: UserId, peer: UserId, asset: Address, amount: nat,
                          main: Branch)
    requires id !in w.orders
    ensures var w' := Next(cfg, w, ConditionalMade(id, owner, peer, asset, amount, main));
      && id in w'.orders && w' == w.(orders := w.orders[id := w'.orders[id]])
      && var o := w'.orders[id];
         && o.kind == ConditionalTransfer && o.owner == owner && o.counterparty == peer
         && o.asset == asset && o.amount == amount && o.main == main
         && o.state == Fund && o.terminal == TermNone && !o.fundingVia && o.receipt == None && o.evidence == {}
  {}
}
