// The platform beside the contract: its offers and orders, and service calls that act on the chain
// first and commit to the database afterwards, if they get that far.
module Platform {
  import opened Results
  import opened Erc20
  import opened EscrowModel
  import opened OrderMachine
  import opened Orders

  // The contract's deployment, and the wallet address of each user. Zero is a user without one.
  datatype Config = Config(dep: Deployment, addressOf: UserId -> Address)

  datatype OfferStatus = Active | Filled | Delisted

  // `side` is the maker's.
  datatype Offer = Offer(maker: UserId, side: Side, asset: Address, qty: nat, remaining: nat, status: OfferStatus)

  type Offers = map<Id, Offer>
  type Rows = map<Id, OrderRow>

  // A service call between its chain action and its commit, with what it did on the chain.
  datatype Pending =
    | AdvancePending(id: Id, a: Advance, out: Action)
    | RulingPending(id: Id, release: bool, out: Action)
    | OfferPending(offerId: Id, offer: Offer)
    | TakePending(id: Id, row: OrderRow)
    | FundingPending(id: Id)

  datatype World = World(chain: State, offers: Offers, orders: Rows, pending: multiset<Pending>)

  datatype PlatformError =
    | NoSuchOrder | NoSuchOffer | IsTerminal | IllegalTransition | NotInDispute | NothingToFund | BadAmount
    | NoPayee | NoTerms | NoListingLock | LockNotFound
    | OfferExists | OfferClosed | SelfTrade | Oversold | AlreadyStored
    | ChainRefused(error: Error)

  // What one call brings to the chain and finds on its way: the nonce, deadline and one signature of its
  // attestation, and which of four reads were answered: the position, the owner's and the
  // counterparty's rows, the row with the order's terms. The code goes on without whatever is missing.
  datatype Seal = Seal(
    nonce: nat, deadline: nat, sig: Signature,
    positionRead: bool, ownerRead: bool, peerRead: bool, termsRead: bool)

  // Whom a call pays, as far as it could read. An order whose terms could not be read is taken for one of a
  // taker who buys.
  function PayeeRead(cfg: Config, o: OrderRow, seal: Seal): Address {
    if PaysPeer(if seal.termsRead then o else o.(side := Buy))
    then if seal.peerRead then cfg.addressOf(o.counterparty) else 0
    else if seal.ownerRead then cfg.addressOf(o.owner) else 0
  }

  // A call forgets the reservation when the order's terms, and so its offer, could not be read.
  function Carried(o: OrderRow, a: Advance, seal: Seal): Advance {
    if o.kind == OTCTake && a.extra == ReturnReservation && !seal.termsRead then a.(extra := Nothing) else a
  }

  // ── reservations ──

  function Restocked(x: Offer, delta: int): Result<Offer, PlatformError> {
    var next := x.remaining + delta;
    if next < 0 then Failure(Oversold)
    else
      var emptied := if next == 0 && x.status == Active then Filled else x.status;
      var status := if next > 0 && x.status == Filled then Active else emptied;
      Success(x.(remaining := next, status := status))
  }

  function ReserveQty(offers: Offers, f: Id, delta: int): Result<Offers, PlatformError> {
    if f !in offers then Failure(NoSuchOffer)
    else
      var x :- Restocked(offers[f], delta);
      Success(offers[f := x])
  }

  // ── settlement: which chain action an ending calls for ──

  function SettleCall(cfg: Config, chain: State, id: Id, o: OrderRow, term: Terminal, score: nat,
                      seal: Seal): Option<Call>
  {
    match term
    case TermCompleted =>
      if PayeeRead(cfg, o, seal) == 0 then None
      else Some(ReleaseCall(Attestation(id, ToRelease, score, seal.nonce, seal.deadline), [seal.sig]))
    case TermCancelled => RefundIfEscrowed(chain, id, seal)
    case TermExpired => RefundIfEscrowed(chain, id, seal)
    case TermDisputed => None
    case TermNone => None
  }

  // A position that cannot be read counts as none.
  function RefundIfEscrowed(chain: State, id: Id, seal: Seal): Option<Call> {
    if seal.positionRead && id in chain.positions && chain.positions[id].status == Escrowed
    then Some(RefundCall(Attestation(id, ToRefund, 0, seal.nonce, seal.deadline), [seal.sig]))
    else None
  }

  function ActionOf(cfg: Config, chain: State, id: Id, o: OrderRow, a: Advance, term: Terminal, seal: Seal):
    Result<Option<Call>, PlatformError>
  {
    if a.ev == EvBind then
      if PayeeRead(cfg, o, seal) == 0 then Failure(NoPayee)
      else if !seal.termsRead then Failure(NoTerms)
      else if o.amount > MAX_UINT256 || ListingAvailable(chain, o.offer) < o.amount then Failure(NoListingLock)
      else Success(Some(BindListingLockCall(id, o.offer, o.amount, PayeeRead(cfg, o, seal))))
    else Success(SettleCall(cfg, chain, id, o, term, a.score, seal))
  }

  function Act(cfg: Config, chain: State, tx: Tx, call: Option<Call>): Result<State, PlatformError> {
    match call
    case None => Success(chain)
    case Some(c) =>
      match Step(cfg.dep, chain, tx, c)
      case Success(after) => Success(after)
      case Failure(e) => Failure(ChainRefused(e))
  }

  // What goes on record of a chain action.
  function ActionName(call: Option<Call>): Action {
    if call.None? then NoAction
    else match call.value
      case BindListingLockCall(_, _, _, _) => BindAction
      case ReleaseCall(_, _) => ReleaseAction
      case RefundCall(_, _) => RefundAction
      case _ => NoAction
  }

  // ── the first half of a call: checks and the chain action ──

  function BeginAdvance(cfg: Config, w: World, tx: Tx, seal: Seal, id: Id, a: Advance): Result<World, PlatformError> {
    if id !in w.orders then Failure(NoSuchOrder)
    else if w.orders[id].terminal != TermNone then Failure(IsTerminal)
    else match Check(w.orders[id].kind, w.orders[id].state, a.ev, a.actor, To(a.dst))
      case Failure(_) => Failure(IllegalTransition)
      case Success(term) =>
        var call :- ActionOf(cfg, w.chain, id, w.orders[id], a, term, seal);
        var after :- Act(cfg, w.chain, tx, call);
        var p := AdvancePending(id, Carried(w.orders[id], a, seal), ActionName(call));
        Success(w.(chain := after, pending := w.pending + multiset{p}))
  }

  function BeginRuling(cfg: Config, w: World, tx: Tx, seal: Seal, id: Id, release: bool): Result<World, PlatformError> {
    if id !in w.orders then Failure(NoSuchOrder)
    else if w.orders[id].state != OrderState.Disputed then Failure(NotInDispute)
    else
      var term := if release then TermCompleted else TermCancelled;
      var call := SettleCall(cfg, w.chain, id, w.orders[id], term, 0, seal);
      var after :- Act(cfg, w.chain, tx, call);
      Success(w.(chain := after, pending := w.pending + multiset{RulingPending(id, release, ActionName(call))}))
  }

  // The four things a sell offer's lock is checked for before it is listed.
  predicate LockFits(cfg: Config, chain: State, f: Id, maker: UserId, asset: Address, qty: nat) {
    && f in chain.listings
    && var l := chain.listings[f];
       l.maker == cfg.addressOf(maker) && l.token == asset && l.open && l.total - l.bound >= qty
  }

  function BeginOffer(cfg: Config, w: World, f: Id, maker: UserId, side: Side, asset: Address,
                      qty: nat): Result<World, PlatformError>
  {
    if qty == 0 then Failure(BadAmount)
    else if side == Sell && !LockFits(cfg, w.chain, f, maker, asset, qty) then Failure(LockNotFound)
    else if f in w.offers then Failure(OfferExists)
    else Success(w.(pending := w.pending + multiset{OfferPending(f, Offer(maker, side, asset, qty, qty, Active))}))
  }

  function Taken(f: Id, x: Offer, taker: UserId, amount: nat): OrderRow {
    OrderRow(OTCTake, taker, x.maker, x.asset, amount, Immediate, if x.side == Sell then Buy else Sell, f,
             Match, TermNone, false, None, Match, {}, true)
  }

  function BeginTake(w: World, id: Id, f: Id, taker: UserId, amount: nat): Result<World, PlatformError> {
    if f !in w.offers then Failure(NoSuchOffer)
    else if w.offers[f].status != Active then Failure(OfferClosed)
    else if w.offers[f].maker == taker then Failure(SelfTrade)
    else Success(w.(pending := w.pending + multiset{TakePending(id, Taken(f, w.offers[f], taker, amount))}))
  }

  function BeginFunding(w: World, id: Id): Result<World, PlatformError> {
    if id !in w.orders then Failure(NoSuchOrder)
    else if !NeedsFunding(w.orders[id]) then Failure(NothingToFund)
    else Success(w.(pending := w.pending + multiset{FundingPending(id)}))
  }

  // ── the second half: one database transaction, all or nothing ──

  function StoreAdvance(offers: Offers, orders: Rows, id: Id, a: Advance,
                        out: Action): Result<(Offers, Rows), PlatformError>
  {
    if id !in orders then Failure(NoSuchOrder)
    else match Advanced(orders[id], a)
      case Failure(_) => Failure(IllegalTransition)
      case Success(moved) =>
        var o := Recorded(moved, out);
        if a.extra == ReturnReservation && o.kind == OTCTake then
          var back :- ReserveQty(offers, o.offer, o.amount);
          Success((back, orders[id := o]))
        else Success((offers, orders[id := o]))
  }

  function StoreRuling(orders: Rows, id: Id, release: bool, out: Action): Result<Rows, PlatformError> {
    if id !in orders then Failure(NoSuchOrder)
    else match Ruled(orders[id], release)
      case Failure(_) => Failure(NotInDispute)
      case Success(o) => Success(orders[id := Recorded(o, out)])
  }

  function StoreTake(offers: Offers, orders: Rows, id: Id, o: OrderRow): Result<(Offers, Rows), PlatformError> {
    if id in orders then Failure(AlreadyStored)
    else
      var less :- ReserveQty(offers, o.offer, 0 - o.amount);
      Success((less, orders[id := o]))
  }

  function Store(offers: Offers, orders: Rows, p: Pending): Result<(Offers, Rows), PlatformError> {
    match p
    case AdvancePending(id, a, out) => StoreAdvance(offers, orders, id, a, out)
    case RulingPending(id, release, out) =>
      var after :- StoreRuling(orders, id, release, out);
      Success((offers, after))
    case OfferPending(f, x) => if f in offers then Failure(AlreadyStored) else Success((offers[f := x], orders))
    case TakePending(id, o) => StoreTake(offers, orders, id, o)
    case FundingPending(id) =>
      if id !in orders then Failure(NoSuchOrder) else Success((offers, orders[id := orders[id].(fundingVia := true)]))
  }

  function CommitCall(w: World, p: Pending): World {
    var rest := w.(pending := w.pending - multiset{p});
    match Store(w.offers, w.orders, p)
    case Failure(_) => rest
    case Success((offers, orders)) => rest.(offers := offers, orders := orders)
  }

  // ── everything that can happen ──

  datatype Happening =
    | Others(tx: Tx, call: Call)                   // somebody else's transaction
    | AdvanceBegins(tx: Tx, seal: Seal, id: Id, a: Advance)
    | RulingBegins(tx: Tx, seal: Seal, id: Id, release: bool)
    | OfferBegins(offerId: Id, maker: UserId, side: Side, asset: Address, qty: nat)
    | TakeBegins(id: Id, offerId: Id, taker: UserId, amount: nat)
    | FundingBegins(id: Id)
    | ConditionalMade(id: Id, owner: UserId, counterparty: UserId, asset: Address, amount: nat, main: Branch)
    | OfferDelisted(offerId: Id)
    | Commits(p: Pending)
    | Crashes(p: Pending)

  // The service makes only the calls it is written to make.
  predicate Serves(orders: Rows, id: Id, a: Advance) {
    id in orders ==> Issued(orders[id], a)
  }

  predicate Possible(cfg: Config, w: World, h: Happening) {
    match h
    case Others(tx, call) => Sendable(cfg.dep, tx)
    case AdvanceBegins(tx, _, id, a) => Sendable(cfg.dep, tx) && Serves(w.orders, id, a)
    case RulingBegins(tx, _, _, _) => Sendable(cfg.dep, tx)
    case OfferBegins(f, _, _, _, _) => f != 0 // an offer's key is a hash, taken never to be zero
    case Commits(p) => p in w.pending
    case Crashes(p) => p in w.pending
    case _ => true
  }

  function Conditional(owner: UserId, counterparty: UserId, asset: Address, amount: nat, main: Branch): OrderRow {
    OrderRow(ConditionalTransfer, owner, counterparty, asset, amount, main, Buy, 0, Fund, TermNone, false, None, Fund,
             {}, true)
  }

  function OrElse(r: Result<World, PlatformError>, w: World): World {
    if r.Success? then r.value else w
  }

  function Next(cfg: Config, w: World, h: Happening): World {
    match h
    case Others(tx, call) =>
      (match Act(cfg, w.chain, tx, Some(call)) case Success(after) => w.(chain := after) case Failure(_) => w)
    case AdvanceBegins(tx, seal, id, a) => OrElse(BeginAdvance(cfg, w, tx, seal, id, a), w)
    case RulingBegins(tx, seal, id, release) => OrElse(BeginRuling(cfg, w, tx, seal, id, release), w)
    case OfferBegins(f, maker, side, asset, qty) => OrElse(BeginOffer(cfg, w, f, maker, side, asset, qty), w)
    case TakeBegins(id, f, taker, amount) => OrElse(BeginTake(w, id, f, taker, amount), w)
    case FundingBegins(id) => OrElse(BeginFunding(w, id), w)
    case ConditionalMade(id, owner, counterparty, asset, amount, main) =>
      if id in w.orders then w
      else w.(orders := w.orders[id := Conditional(owner, counterparty, asset, amount, main)])
    case OfferDelisted(f) => if f !in w.offers then w else w.(offers := w.offers[f := w.offers[f].(status := Delisted)])
    case Commits(p) => CommitCall(w, p)
    case Crashes(p) => w.(pending := w.pending - multiset{p})
  }

  predicate AllPossible(cfg: Config, w: World, run: seq<Happening>)
    decreases |run|
  {
    run == [] || (Possible(cfg, w, run[0]) && AllPossible(cfg, Next(cfg, w, run[0]), run[1..]))
  }

  function Later(cfg: Config, w: World, run: seq<Happening>): World
    decreases |run|
  {
    if run == [] then w else Later(cfg, Next(cfg, w, run[0]), run[1..])
  }

  // A freshly deployed contract beside an empty database.
  function Empty(chain: State): World {
    World(chain, map[], map[], multiset{})
  }
}
