// The contract's money, seen three ways: what the token contracts say it has, what its
// positions and listings say it owes, and what its event log says has moved.
module EscrowBooks {
  import opened Sums
  import opened Erc20
  import opened EscrowModel
  import opened EscrowQuorum

  type Positions = map<Id, Position>
  type Listings = map<Id, Listing>
  type Ledgers = map<Address, Ledger>

  predicate Live(p: Position) {
    p.status == Escrowed || p.status == Disputed
  }

  predicate Settled(p: Position) {
    p.status == Released || p.status == Refunded
  }

  // ── what is owed ──

  function LiveOne(P: Positions, t: Address, id: Id): int {
    if id in P && P[id].token == t && Live(P[id]) then P[id].amount else 0
  }

  function FreeOne(L: Listings, t: Address, o: Id): int {
    if o in L && L[o].token == t then L[o].total - L[o].bound else 0
  }

  function BoundOne(P: Positions, o: Id, id: Id): int {
    if id in P && P[id].offerId == o && P[id].status != Refunded then P[id].amount else 0
  }

  function LiveOf(P: Positions, t: Address): nat -> int {
    (id: nat) => LiveOne(P, t, id)
  }

  function FreeOf(L: Listings, t: Address): nat -> int {
    (o: nat) => FreeOne(L, t, o)
  }

  function BoundTo(P: Positions, o: Id): nat -> int {
    (id: nat) => BoundOne(P, o, id)
  }

  // Everything the contract owes in token `t`: its live positions and the free part of its listings.
  ghost function Owed(P: Positions, L: Listings, t: Address): int {
    Sum(P.Keys, LiveOf(P, t)) + Sum(L.Keys, FreeOf(L, t))
  }

  // The part of listing `o` that orders hold or have been paid from.
  ghost function BoundSum(P: Positions, o: Id): int {
    Sum(P.Keys, BoundTo(P, o))
  }

  function ListingTotal(L: Listings, o: Id): int {
    if o in L then L[o].total else 0
  }

  function ListingBoundPart(L: Listings, o: Id): int {
    if o in L then L[o].bound else 0
  }

  function Balance(self: Address, T: Ledgers, t: Address): int {
    if t in T then BalanceOf(T[t], self) else 0
  }

  // ── what the log says ──

  function Inflow(t: Address): Event -> int {
    (e: Event) => match e
      case Deposited(_, _, token, amount) => if token == t then amount else 0
      case ListingLocked(_, _, token, amount) => if token == t then amount else 0
      case _ => 0
  }

  function Outflow(self: Address, t: Address): Event -> int {
    (e: Event) => match e
      case ListingUnlocked(_, _, token, returned) => if token == t then returned else 0
      case ReleasedTo(_, _, token, amount, _) => if token == t then amount else 0
      case RefundedTo(_, _, dst, token, amount) => if token == t && dst != self then amount else 0
      case _ => 0
  }

  // What the contract has beyond its debts: tokens sent to it from outside, and releases whose
  // beneficiary is the contract itself.
  function Surplus(self: Address, t: Address): Event -> int {
    (e: Event) => match e
      case Credited(token, change) => if token == t then change else 0
      case ReleasedTo(_, dst, token, amount, _) => if token == t && dst == self then amount else 0
      case _ => 0
  }

  function LockedFor(o: Id): Event -> int {
    (e: Event) => match e
      case ListingLocked(offerId, _, _, amount) => if offerId == o then amount else 0
      case _ => 0
  }

  function ReturnedFor(self: Address, o: Id): Event -> int {
    (e: Event) => match e
      case ListingUnlocked(offerId, _, _, returned) => if offerId == o then returned else 0
      case RefundedTo(_, offerId, dst, _, amount) => if offerId == o && dst != self then amount else 0
      case _ => 0
  }

  function SettlementOf(id: Id): Event -> int {
    (e: Event) => match e
      case ReleasedTo(orderId, _, _, _, _) => if orderId == id then 1 else 0
      case RefundedTo(orderId, _, _, _, _) => if orderId == id then 1 else 0
      case _ => 0
  }

  // ── the invariant, one part of the storage at a time ──

  ghost predicate TokensOk(self: Address, T: Ledgers) {
    forall t {:trigger LedgerOk(self, T[t])} :: t in T ==> LedgerOk(self, T[t])
  }

  ghost predicate LedgerOk(self: Address, l: Ledger) {
    Sound(l) && NoApprovals(self, l)
  }

  // The contract never approves anybody to spend its tokens.
  ghost predicate NoApprovals(self: Address, l: Ledger) {
    forall x :: Allowance(l, self, x) == 0
  }

  predicate PositionOk(self: Address, p: Position, L: Listings, T: Ledgers) {
    && p.token in T && p.token != 0
    && p.amount > 0
    && p.payer != 0 && p.payer != self && p.beneficiary != 0
    && (p.offerId != 0 ==> p.offerId in L && L[p.offerId].token == p.token && L[p.offerId].maker == p.payer)
  }

  predicate ListingOk(self: Address, l: Listing, T: Ledgers) {
    && l.token in T && l.token != 0
    && l.maker != 0 && l.maker != self
    && l.bound <= l.total
    && (!l.open ==> l.bound == l.total)
  }

  ghost predicate Placed(self: Address, P: Positions, L: Listings, T: Ledgers) {
    && (forall id {:trigger PositionOk(self, P[id], L, T)} :: id in P ==> PositionOk(self, P[id], L, T))
    && (forall o {:trigger ListingOk(self, L[o], T)} :: o in L ==> ListingOk(self, L[o], T))
  }

  // The balance is exactly the debts plus the surplus, and money in is exactly money out plus the debts.
  ghost predicate TokenBooks(self: Address, P: Positions, L: Listings, T: Ledgers, log: seq<Event>, t: Address) {
    && Balance(self, T, t) == Owed(P, L, t) + Total(log, Surplus(self, t))
    && Total(log, Inflow(t)) == Total(log, Outflow(self, t)) + Owed(P, L, t)
  }

  // Everything ever locked under an offer was returned or is in its total, and what is bound is
  // the sum of its positions that were not refunded.
  ghost predicate ListingBooks(self: Address, P: Positions, L: Listings, log: seq<Event>, o: Id) {
    && Total(log, LockedFor(o)) == Total(log, ReturnedFor(self, o)) + ListingTotal(L, o)
    && ListingBoundPart(L, o) == BoundSum(P, o)
  }

  // An offer id of zero is left out: a refund reads it as "not from a listing".
  ghost predicate Books(self: Address, P: Positions, L: Listings, T: Ledgers, log: seq<Event>) {
    && (forall t :: TokenBooks(self, P, L, T, log, t))
    && (forall o :: o != 0 ==> ListingBooks(self, P, L, log, o))
  }

  function SettledOne(P: Positions, id: Id): int {
    if id in P && Settled(P[id]) then 1 else 0
  }

  // A logged settlement says what the position says: who was paid, how much, in what token.
  predicate Truthful(self: Address, P: Positions, e: Event) {
    match e
    case ReleasedTo(id, dst, token, amount, _) =>
      && id in P && P[id].status == Released
      && dst == P[id].beneficiary && token == P[id].token && amount == P[id].amount
    case RefundedTo(id, offerId, dst, token, amount) =>
      && id in P && P[id].status == Refunded
      && offerId == P[id].offerId && token == P[id].token && amount == P[id].amount
      && (dst == P[id].payer || (dst == self && offerId != 0))
    case Credited(_, change) => change >= 0
    case _ => true
  }

  ghost predicate LogOk(self: Address, P: Positions, log: seq<Event>) {
    && (forall e {:trigger Truthful(self, P, e)} :: e in log ==> Truthful(self, P, e))
    && (forall id :: Total(log, SettlementOf(id)) == SettledOne(P, id))
  }

  // Every used attestation belongs to an order that is already settled.
  ghost predicate UsedOk(P: Positions, used: set<Digest>) {
    forall d :: d in used ==> SettledOne(P, d.att.orderId) == 1
  }

  ghost predicate Inv(dep: Deployment, s: State) {
    && SignersOk(s.isSigner, s.signerList, s.threshold, s.minScore)
    && s.cachedDomain == Domain(s.cachedChainId, dep.self)
    && TokensOk(dep.self, s.tokens)
    && Placed(dep.self, s.positions, s.listings, s.tokens)
    && Books(dep.self, s.positions, s.listings, s.tokens, s.log)
    && LogOk(dep.self, s.positions, s.log)
    && UsedOk(s.positions, s.attestationUsed)
  }

  // ── one step changes at most one position and one listing, and logs one event ──

  ghost predicate SameBut<V>(m: map<Id, V>, n: map<Id, V>, k: Id) {
    forall x :: x != k ==> (x in m <==> x in n) && (x in m && x in n ==> m[x] == n[x])
  }

  lemma OwedChange(P: Positions, P': Positions, L: Listings, L': Listings, id: Id, o: Id, t: Address)
    requires SameBut(P, P', id) && SameBut(L, L', o)
    ensures Owed(P', L', t) - Owed(P, L, t) ==
            LiveOne(P', t, id) - LiveOne(P, t, id) + FreeOne(L', t, o) - FreeOne(L, t, o)
  {
    forall k | k != id ensures At(P.Keys, LiveOf(P, t), k) == At(P'.Keys, LiveOf(P', t), k) {}
    SumChange(P.Keys, LiveOf(P, t), P'.Keys, LiveOf(P', t), id);
    forall k | k != o ensures At(L.Keys, FreeOf(L, t), k) == At(L'.Keys, FreeOf(L', t), k) {}
    SumChange(L.Keys, FreeOf(L, t), L'.Keys, FreeOf(L', t), o);
  }

  lemma BoundChange(P: Positions, P': Positions, id: Id, o: Id)
    requires SameBut(P, P', id)
    ensures BoundSum(P', o) - BoundSum(P, o) == BoundOne(P', o, id) - BoundOne(P, o, id)
  {
    forall k | k != id ensures At(P.Keys, BoundTo(P, o), k) == At(P'.Keys, BoundTo(P', o), k) {}
    SumChange(P.Keys, BoundTo(P, o), P'.Keys, BoundTo(P', o), id);
  }

  lemma BoundSumCovers(P: Positions, id: Id, o: Id)
    ensures BoundOne(P, o, id) <= BoundSum(P, o)
  {
    forall k ensures At(P.Keys, BoundTo(P, o), k) >= 0 {}
    TermBelowSum(P.Keys, BoundTo(P, o), id);
    assert At(P.Keys, BoundTo(P, o), id) == BoundOne(P, o, id);
  }

  // One position and one listing are inside what is owed.
  lemma OwedCovers(self: Address, P: Positions, L: Listings, T: Ledgers, id: Id, o: Id, t: Address)
    requires Placed(self, P, L, T)
    ensures LiveOne(P, t, id) + FreeOne(L, t, o) <= Owed(P, L, t)
  {
    forall k ensures At(P.Keys, LiveOf(P, t), k) >= 0 {}
    TermBelowSum(P.Keys, LiveOf(P, t), id);
    assert At(P.Keys, LiveOf(P, t), id) == LiveOne(P, t, id);
    forall k ensures At(L.Keys, FreeOf(L, t), k) >= 0 {
      assert k in L ==> ListingOk(self, L[k], T);
    }
    TermBelowSum(L.Keys, FreeOf(L, t), o);
    assert At(L.Keys, FreeOf(L, t), o) == FreeOne(L, t, o);
  }

  // The balance never falls short of the debts.
  lemma BalanceCovers(self: Address, P: Positions, L: Listings, T: Ledgers, log: seq<Event>, t: Address)
    requires Books(self, P, L, T, log) && LogOk(self, P, log)
    ensures Owed(P, L, t) <= Balance(self, T, t)
  {
    assert TokenBooks(self, P, L, T, log, t);
    forall e | e in log ensures Surplus(self, t)(e) >= 0 {
      assert Truthful(self, P, e);
    }
    TotalNonNegative(log, Surplus(self, t));
  }

  // How an event moves the books of token `t` and of offer `o`, given the step it logs.
  ghost predicate MovesToken(self: Address, P: Positions, P': Positions, L: Listings, L': Listings,
                             T: Ledgers, T': Ledgers, id: Id, o: Id, e: Event, t: Address) {
    var owed := LiveOne(P', t, id) - LiveOne(P, t, id) + FreeOne(L', t, o) - FreeOne(L, t, o);
    && Balance(self, T', t) - Balance(self, T, t) == owed + Surplus(self, t)(e)
    && Inflow(t)(e) == Outflow(self, t)(e) + owed
  }

  ghost predicate MovesListing(self: Address, P: Positions, P': Positions, L: Listings, L': Listings,
                               id: Id, e: Event, o: Id) {
    && LockedFor(o)(e) == ReturnedFor(self, o)(e) + ListingTotal(L', o) - ListingTotal(L, o)
    && ListingBoundPart(L', o) - ListingBoundPart(L, o) == BoundOne(P', o, id) - BoundOne(P, o, id)
  }

  ghost predicate Moves(self: Address, P: Positions, P': Positions, L: Listings, L': Listings,
                        T: Ledgers, T': Ledgers, id: Id, o: Id, e: Event) {
    && SameBut(P, P', id) && SameBut(L, L', o)
    && (forall t :: MovesToken(self, P, P', L, L', T, T', id, o, e, t))
    && (forall x :: x != 0 ==> MovesListing(self, P, P', L, L', id, e, x))
  }

  lemma BooksFollow(self: Address, P: Positions, P': Positions, L: Listings, L': Listings,
                    T: Ledgers, T': Ledgers, log: seq<Event>, id: Id, o: Id, e: Event)
    requires Books(self, P, L, T, log)
    requires Moves(self, P, P', L, L', T, T', id, o, e)
    ensures Books(self, P', L', T', log + [e])
  {
    forall t ensures TokenBooks(self, P', L', T', log + [e], t) {
      assert TokenBooks(self, P, L, T, log, t) && MovesToken(self, P, P', L, L', T, T', id, o, e, t);
      OwedChange(P, P', L, L', id, o, t);
      TotalAppend(log, e, Surplus(self, t));
      TotalAppend(log, e, Inflow(t));
      TotalAppend(log, e, Outflow(self, t));
    }
    forall x | x != 0 ensures ListingBooks(self, P', L', log + [e], x) {
      assert ListingBooks(self, P, L, log, x) && MovesListing(self, P, P', L, L', id, e, x);
      BoundChange(P, P', id, x);
      TotalAppend(log, e, LockedFor(x));
      TotalAppend(log, e, ReturnedFor(self, x));
    }
  }

  // The log stays true and counts one settlement per settled order.
  lemma LogFollows(self: Address, P: Positions, P': Positions, log: seq<Event>, id: Id, e: Event)
    requires LogOk(self, P, log)
    requires SameBut(P, P', id)
    requires id in P ==> id in P' && (Settled(P[id]) ==> P'[id] == P[id])
    requires Truthful(self, P', e)
    requires forall k :: SettlementOf(k)(e) == SettledOne(P', k) - SettledOne(P, k)
    ensures LogOk(self, P', log + [e])
  {
    forall x | x in log + [e] ensures Truthful(self, P', x) {
      if x != e {
        assert x in log && Truthful(self, P, x);
      }
    }
    forall k ensures Total(log + [e], SettlementOf(k)) == SettledOne(P', k) {
      TotalAppend(log, e, SettlementOf(k));
      assert SettlementOf(k)(e) == SettledOne(P', k) - SettledOne(P, k);
    }
  }
}
