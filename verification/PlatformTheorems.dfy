// What holds across the two ledgers, the platform's and the contract's, in every reachable state.
module PlatformTheorems {
  import opened Results
  import opened Sums
  import opened Erc20
  import opened EscrowModel
  import opened EscrowBooks
  import opened EscrowTheorems
  import opened OrderMachine
  import opened Orders
  import opened Platform
  import opened PlatformBooks
  import Ticks

  // Reached from a fresh deployment and an empty database by calls of the platform that interleave, crash
  // anywhere and go on without what they could not read, and by any transactions of anybody else.
  ghost predicate WorldReachedBy(cfg: Config, w: World, tx: Tx, signers: seq<Address>, threshold: nat, minScore: nat,
                                 T: Ledgers, run: seq<Happening>) {
    && FreshTokens(cfg.dep.self, T) && Deploy(cfg.dep, tx, signers, threshold, minScore, T).Success?
    && var start := Empty(Deploy(cfg.dep, tx, signers, threshold, minScore, T).value);
       AllPossible(cfg, start, run) && w == Later(cfg, start, run)
  }

  ghost predicate WorldReachable(cfg: Config, w: World) {
    exists tx, signers, threshold, minScore, T, run :: WorldReachedBy(cfg, w, tx, signers, threshold, minScore, T, run)
  }

  lemma ReachableIsOk(cfg: Config, w: World)
    requires WorldReachable(cfg, w)
    ensures WorldOk(cfg, w)
  {
    var tx, signers, threshold, minScore, T, run :| WorldReachedBy(cfg, w, tx, signers, threshold, minScore, T, run);
    EmptyIsOk(cfg, tx, signers, threshold, minScore, T);
    RunKeepsWorld(cfg, Empty(Deploy(cfg.dep, tx, signers, threshold, minScore, T).value), run);
  }

  // ── reservations ──

  // What is left of an offer plus what its orders count for is the whole lot; it is never oversold; an
  // active offer has something left and a filled one nothing. An order stops counting only when a call
  // ends it as cancelled or expired: orders refunded by a ruling go on counting.
  lemma ReservationsConserved(cfg: Config, w: World, f: Id)
    requires WorldReachable(cfg, w) && f in w.offers
    ensures w.offers[f].remaining + HeldSum(w.orders, f) == w.offers[f].qty
    ensures 0 <= w.offers[f].remaining <= w.offers[f].qty
    ensures w.offers[f].status == Active ==> w.offers[f].remaining > 0
    ensures w.offers[f].status == Filled ==> w.offers[f].remaining == 0
    ensures forall id {:trigger w.orders[id]} :: id in w.orders ==> CountedRight(w.orders[id])
  {
    ReachableIsOk(cfg, w);
    assert ReservedRight(w.orders, w.offers, f) && OfferOk(cfg, w.offers[f], f, w.chain.listings);
    forall id | id in w.orders ensures CountedRight(w.orders[id]) {
      assert RowOk(w.orders[id], w.offers);
    }
  }

  // ── what is on record as paid is paid ──

  // However calls interleave and crash and whatever anybody else does, an order with a release on record
  // has had its position released, exactly once, to the position's beneficiary.
  lemma RecordedReleaseIsPaid(cfg: Config, w: World, id: Id)
    requires WorldReachable(cfg, w) && id in w.orders && ReleaseAction in w.orders[id].evidence
    ensures IsReleased(w.chain.positions, id) && Total(w.chain.log, SettlementOf(id)) == 1
    ensures PaidOnLog(w.chain.log, w.chain.positions[id], id)
  {
    ReachableIsOk(cfg, w);
    assert ProgressOk(cfg, w.orders[id], id, w.chain.positions);
    ReleasedIsPaid(cfg, w.chain, id);
  }

  lemma ReleasedIsPaid(cfg: Config, c: State, id: Id)
    requires Inv(cfg.dep, c) && IsReleased(c.positions, id)
    ensures Total(c.log, SettlementOf(id)) == 1 && PaidOnLog(c.log, c.positions[id], id)
  {
    var P := c.positions;
    assert Total(c.log, SettlementOf(id)) == SettledOne(P, id);
    var e := TotalWitness(c.log, SettlementOf(id));
    assert Truthful(cfg.dep.self, P, e);
    assert e == ReleasedTo(id, P[id].beneficiary, P[id].token, P[id].amount, e.score);
  }

  // The log has a payment of the whole position to its beneficiary.
  ghost predicate PaidOnLog(log: seq<Event>, p: Position, id: Id) {
    exists score :: ReleasedTo(id, p.beneficiary, p.token, p.amount, score) in log
  }

  // When a taker bought, a completed order's position is a slice of that offer's listing, of the order's
  // amount, for the taker and nobody else, whoever else may have tried to bind it; and if a release is on
  // record, that is who was paid.
  lemma CompletedBuyIsTheTakers(cfg: Config, w: World, id: Id)
    requires WorldReachable(cfg, w) && id in w.orders
    requires var o := w.orders[id]; o.kind == OTCTake && o.side == Buy && o.terminal == TermCompleted
    ensures var o := w.orders[id];
      && BoundRight(cfg, o, id, w.chain.positions)
      && (ReleaseAction in o.evidence ==>
            IsReleased(w.chain.positions, id) && PaidOnLog(w.chain.log, w.chain.positions[id], id))
  {
    ReachableIsOk(cfg, w);
    var o, P := w.orders[id], w.chain.positions;
    assert RowOk(o, w.offers) && ProgressOk(cfg, o, id, P);
    CompletedIsPastFunding(o);
    if ReleaseAction in o.evidence {
      RecordedReleaseIsPaid(cfg, w, id);
    }
  }

  lemma CompletedIsPastFunding(o: OrderRow)
    requires TickReady(o) && o.kind == OTCTake && o.terminal == TermCompleted
    ensures PastFunding(o.state)
  {}

  // ── the scheduler never meets an order it cannot move ──

  lemma EveryReachableOrderIsDue(cfg: Config, w: World, id: Id, found: Ticks.Finding)
    requires WorldReachable(cfg, w) && id in w.orders && w.orders[id].terminal == TermNone
    ensures var o := w.orders[id];
      && Ticks.DeadlineFor(o, found.termsRead).Some?
      && Ticks.PlanFits(o, found)
      && (Ticks.PlanOf(o, found).Go? ==> (Ticks.LegalCall(o, Ticks.PlanOf(o, found).a) <==> !Ticks.Unlisted(o, found)))
      && (Ticks.Unlisted(o, found) ==> !found.termsRead && o.side == Buy)
  {
    ReachableIsOk(cfg, w);
    assert RowOk(w.orders[id], w.offers);
    Ticks.EveryTickLegal(w.orders[id], found);
  }

  // ── the two ledgers ──

  // A slice of the listing that was not refunded.
  predicate Cut(P: Positions, f: Id, id: Id) {
    id in P && P[id].offerId == f && P[id].status != Status.Refunded
  }

  // Such a slice under the id of an order of that offer, of the order's amount.
  predicate OwnCut(P: Positions, O: Rows, f: Id, id: Id) {
    Cut(P, f, id) && id in O && O[id].kind == OTCTake && O[id].offer == f && O[id].amount == P[id].amount
  }

  // An order that counts against the offer without having its slice.
  function UnboundOne(P: Positions, O: Rows, f: Id, id: Id): int {
    if OwnCut(P, O, f, id) then 0 else HeldOne(O, f, id)
  }

  // A slice still cut from the listing although its order gave its part of the offer back.
  function LeakedOne(P: Positions, O: Rows, f: Id, id: Id): int {
    if OwnCut(P, O, f, id) && !O[id].counted then O[id].amount else 0
  }

  // A slice that somebody bound to no order of the offer, or not in its amount.
  function ForeignOne(P: Positions, O: Rows, f: Id, id: Id): int {
    if Cut(P, f, id) && !OwnCut(P, O, f, id) then P[id].amount else 0
  }

  // An order that is still to be bound: matched or accepted, with nothing on the contract.
  function AwaitingOne(P: Positions, O: Rows, f: Id, id: Id): int {
    if id in O && O[id].kind == OTCTake && O[id].offer == f && BeforeFunding(O[id].state) && id !in P
    then O[id].amount
    else 0
  }

  predicate BeforeFunding(s: OrderState) {
    s == Match || s == S1
  }

  function UnboundFor(P: Positions, O: Rows, f: Id): nat -> int { (id: nat) => UnboundOne(P, O, f, id) }
  function LeakedFor(P: Positions, O: Rows, f: Id): nat -> int { (id: nat) => LeakedOne(P, O, f, id) }
  function ForeignFor(P: Positions, O: Rows, f: Id): nat -> int { (id: nat) => ForeignOne(P, O, f, id) }
  function AwaitingFor(P: Positions, O: Rows, f: Id): nat -> int { (id: nat) => AwaitingOne(P, O, f, id) }

  // Every id that an order or a position has.
  function Ids(w: World): set<Id> { w.orders.Keys + w.chain.positions.Keys }

  ghost function Unbound(w: World, f: Id): int { Sum(Ids(w), UnboundFor(w.chain.positions, w.orders, f)) }
  ghost function Leaked(w: World, f: Id): int { Sum(Ids(w), LeakedFor(w.chain.positions, w.orders, f)) }
  ghost function Foreign(w: World, f: Id): int { Sum(Ids(w), ForeignFor(w.chain.positions, w.orders, f)) }
  ghost function Awaiting(w: World, f: Id): int { Sum(Ids(w), AwaitingFor(w.chain.positions, w.orders, f)) }

  function Plus(a: nat -> int, b: nat -> int): nat -> int { (id: nat) => a(id) + b(id) }

  lemma {:induction false} SumPlus(keys: set<nat>, a: nat -> int, b: nat -> int)
    ensures Sum(keys, Plus(a, b)) == Sum(keys, a) + Sum(keys, b)
  {
    if keys != {} {
      var x :| x in keys;
      SumRemove(keys, a, x);
      SumRemove(keys, b, x);
      SumRemove(keys, Plus(a, b), x);
      SumPlus(keys - {x}, a, b);
    }
  }

  // Order by order and position by position, what counts against an offer and what is cut from its
  // listing differ by the unbound, the leaked and the foreign.
  lemma HeldAgainstBound(w: World, f: Id)
    ensures HeldSum(w.orders, f) - BoundSum(w.chain.positions, f) == Unbound(w, f) - Leaked(w, f) - Foreign(w, f)
  {
    var P, O, K := w.chain.positions, w.orders, Ids(w);
    forall k ensures At(O.Keys, HeldFor(O, f), k) == At(K, HeldFor(O, f), k) {}
    SumAgree(O.Keys, HeldFor(O, f), K, HeldFor(O, f));
    forall k ensures At(P.Keys, BoundTo(P, f), k) == At(K, BoundTo(P, f), k) {}
    SumAgree(P.Keys, BoundTo(P, f), K, BoundTo(P, f));
    var lost := Plus(LeakedFor(P, O, f), ForeignFor(P, O, f));
    forall k ensures At(K, HeldFor(O, f), k) - At(K, BoundTo(P, f), k)
      == At(K, UnboundFor(P, O, f), k) - At(K, lost, k) {}
    SumBalance(K, HeldFor(O, f), BoundTo(P, f), UnboundFor(P, O, f), lost);
    SumPlus(K, LeakedFor(P, O, f), ForeignFor(P, O, f));
  }

  // For every sell offer whose listing is open, whatever anybody has done: the free part of the listing is
  // what is left of the offer, plus what the maker locked beyond the lot, plus what orders count for
  // without a slice, less the slices of orders that gave their part back, less the slices that others cut.
  lemma TwoLedgerEquation(cfg: Config, w: World, f: Id)
    requires WorldReachable(cfg, w) && f in w.offers && w.offers[f].side == Sell
    requires f in w.chain.listings && w.chain.listings[f].open
    ensures var x, l := w.offers[f], w.chain.listings[f];
      && l.maker == cfg.addressOf(x.maker) && l.token == x.asset && l.total >= x.qty
      && (l.total - l.bound) - x.remaining == (l.total - x.qty) + Unbound(w, f) - Leaked(w, f) - Foreign(w, f)
  {
    ReachableIsOk(cfg, w);
    assert OfferOk(cfg, w.offers[f], f, w.chain.listings);
    assert ReservedRight(w.orders, w.offers, f);
    assert ListingBooks(cfg.dep.self, w.chain.positions, w.chain.listings, w.chain.log, f);
    HeldAgainstBound(w, f);
  }

  lemma AwaitingIsUnbound(cfg: Config, w: World, f: Id)
    requires WorldOk(cfg, w)
    ensures 0 <= Awaiting(w, f) <= Unbound(w, f) && Leaked(w, f) >= 0 && Foreign(w, f) >= 0
  {
    var P, O, K := w.chain.positions, w.orders, Ids(w);
    forall k ensures 0 <= At(K, AwaitingFor(P, O, f), k) <= At(K, UnboundFor(P, O, f), k) {
      if k in O { assert RowOk(O[k], w.offers); }
    }
    SumNonNegative(K, AwaitingFor(P, O, f));
    SumOrdered(K, AwaitingFor(P, O, f), UnboundFor(P, O, f));
    forall k ensures At(K, LeakedFor(P, O, f), k) >= 0 && At(K, ForeignFor(P, O, f), k) >= 0 {}
    SumNonNegative(K, LeakedFor(P, O, f));
    SumNonNegative(K, ForeignFor(P, O, f));
  }

  // An offer is backed when the listing's free part covers what is left of it and every order that is
  // still to be bound.
  ghost predicate Backed(w: World, f: Id)
    requires f in w.offers && f in w.chain.listings
  {
    w.chain.listings[f].total - w.chain.listings[f].bound >= w.offers[f].remaining + Awaiting(w, f)
  }

  // It is, exactly when what has leaked and what others cut is covered by what the maker locked beyond the
  // lot and by orders that count against the offer without being about to be bound.
  lemma BackedExactly(cfg: Config, w: World, f: Id)
    requires WorldReachable(cfg, w) && f in w.offers && w.offers[f].side == Sell
    requires f in w.chain.listings && w.chain.listings[f].open
    ensures Backed(w, f) <==>
            Leaked(w, f) + Foreign(w, f)
            <= (w.chain.listings[f].total - w.offers[f].qty) + (Unbound(w, f) - Awaiting(w, f))
    ensures Leaked(w, f) == 0 && Foreign(w, f) == 0 ==> Backed(w, f)
  {
    ReachableIsOk(cfg, w);
    TwoLedgerEquation(cfg, w, f);
    AwaitingIsUnbound(cfg, w, f);
  }
}
