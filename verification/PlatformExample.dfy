// Concrete runs, from deployment on, in which the platform falls short: the shortfalls do happen.
module PlatformExample {
  import opened Results
  import opened Erc20
  import opened EscrowModel
  import opened EscrowBooks
  import opened EscrowTheorems
  import opened EscrowExample
  import opened OrderMachine
  import opened Orders
  import opened Platform
  import opened PlatformBooks
  import opened PlatformTheorems
  import opened PlatformReads
  import opened PlatformLimits
  import opened PlatformStuck
  import Ticks

  // One more happening leads from one reachable state to another.
  lemma ReachableNext(cfg: Config, w: World, h: Happening)
    requires WorldReachable(cfg, w) && Possible(cfg, w, h)
    ensures WorldReachable(cfg, Next(cfg, w, h))
  {
    var tx, signers, threshold, minScore, T, run :| WorldReachedBy(cfg, w, tx, signers, threshold, minScore, T, run);
    LaterAppend(cfg, Empty(Deploy(cfg.dep, tx, signers, threshold, minScore, T).value), run, h);
    assert WorldReachedBy(cfg, Next(cfg, w, h), tx, signers, threshold, minScore, T, run + [h]);
  }

  lemma {:induction false} LaterAppend(cfg: Config, w: World, run: seq<Happening>, h: Happening)
    requires AllPossible(cfg, w, run) && Possible(cfg, Later(cfg, w, run), h)
    ensures AllPossible(cfg, w, run + [h]) && Later(cfg, w, run + [h]) == Next(cfg, Later(cfg, w, run), h)
    decreases |run|
  {
    if run == [] {
      assert [h][1..] == [];
    } else {
      assert (run + [h])[1..] == run[1..] + [h];
      LaterAppend(cfg, Next(cfg, w, run[0]), run[1..], h);
    }
  }

  // ── the cast ──

  const OFFER: Id := 9
  const MAKER: UserId := 2
  const TAKER: UserId := 3

  // User u's wallet is at address 10 * u.
  function Cfg(): Config {
    Config(Dep(), (u: UserId) => 10 * u)
  }

  // Everything can be read.
  function GoodSeal(): Seal {
    Seal(0, 0, OneSig(), true, true, true, true)
  }

  // Reached, with no call under way and the one signer in charge.
  ghost predicate Calm(w: World) {
    && WorldReachable(Cfg(), w) && Reachable(Dep(), w.chain)
    && w.pending == multiset{} && OneSigner(w.chain)
  }

  // ── one step at a time ──

  lemma Opens() returns (w: World)
    ensures Calm(w) && w == Empty(Fresh())
  {
    FreshIsDeployed();
    TokensAreFresh();
    w := Empty(Fresh());
    assert WorldReachedBy(Cfg(), w, TxOf(SIGNER), [SIGNER], 1, 0, map[TOKEN := MakersTokens()], []);
  }

  // One transaction of somebody else.
  lemma OthersAct(w: World, tx: Tx, call: Call) returns (w': World)
    requires Calm(w) && Sendable(Dep(), tx)
    requires Step(Dep(), w.chain, tx, call).Success? && OneSigner(Step(Dep(), w.chain, tx, call).value)
    ensures Calm(w') && w' == w.(chain := Step(Dep(), w.chain, tx, call).value)
  {
    w' := Next(Cfg(), w, Others(tx, call));
    ReachableNext(Cfg(), w, Others(tx, call));
    ReachableStep(Dep(), w.chain, tx, call);
  }

  // A call that does not concern an order that is there, taken up and committed.
  lemma TakenUpAndStored(w: World, h: Happening, p: Pending) returns (w': World)
    requires Calm(w) && Possible(Cfg(), w, h) && Next(Cfg(), w, h) == w.(pending := w.pending + multiset{p})
    requires Store(w.offers, w.orders, p).Success?
    ensures Calm(w') && w'.chain == w.chain && (w'.offers, w'.orders) == Store(w.offers, w.orders, p).value
  {
    var mid := Next(Cfg(), w, h);
    ReachableNext(Cfg(), w, h);
    ReachableNext(Cfg(), mid, Commits(p));
    w' := Next(Cfg(), mid, Commits(p));
    assert w.pending + multiset{p} - multiset{p} == multiset{};
  }

  // A call on an order, taken up, and then committed or not.
  lemma CallIsTakenUp(w: World, id: Id, a: Advance, seal: Seal)
    requires WorldReachable(Cfg(), w) && Serves(w.orders, id, a)
    requires BeginAdvance(Cfg(), w, TxOf(SIGNER), seal, id, a).Success?
    ensures var begun := BeginAdvance(Cfg(), w, TxOf(SIGNER), seal, id, a).value;
      && WorldReachable(Cfg(), begun) && PendingOf(Cfg(), w, seal, id, a) in begun.pending
      && WorldReachable(Cfg(), CommitCall(begun, PendingOf(Cfg(), w, seal, id, a)))
      && WorldReachable(Cfg(), Crashed(Cfg(), w, TxOf(SIGNER), seal, id, a))
  {
    var h, p := AdvanceBegins(TxOf(SIGNER), seal, id, a), PendingOf(Cfg(), w, seal, id, a);
    CrashLeavesTheChain(Cfg(), w, TxOf(SIGNER), seal, id, a);
    PendingIsOf(Cfg(), w, TxOf(SIGNER), seal, id, a);
    ReachableNext(Cfg(), w, h);
    ReachableNext(Cfg(), Next(Cfg(), w, h), Commits(p));
    ReachableNext(Cfg(), Next(Cfg(), w, h), Crashes(p));
  }

  // A call with nothing to do on the chain moves the order.
  lemma CallGoesThrough(w: World, a: Advance, seal: Seal) returns (w': World)
    requires Calm(w) && ORDER in w.orders && w.orders[ORDER].terminal == TermNone && Issued(w.orders[ORDER], a)
    requires a.ev != EvBind && a.extra != ReturnReservation
    requires Legal(w.orders[ORDER].kind, w.orders[ORDER].state, a.ev, a.actor, a.dst)
    requires SettleCall(Cfg(), w.chain, ORDER, w.orders[ORDER], TerminalOf(a.dst), a.score, seal) == None
    ensures Calm(w') && w' == w.(orders := w.orders[ORDER := Ticks.Moved(w.orders[ORDER], a)])
  {
    PlainBegin(Cfg(), w, TxOf(SIGNER), seal, ORDER, a);
    PlainCommit(w, ORDER, a);
    CallIsTakenUp(w, ORDER, a, seal);
    w' := w.(orders := w.orders[ORDER := Ticks.Moved(w.orders[ORDER], a)]);
  }

  // The order stands in `s` on the terms of `deal`, and has not ended.
  predicate OrderAt(w: World, deal: OrderRow, s: OrderState) {
    && ORDER in w.orders && SameDeal(deal, w.orders[ORDER]) && Aims(To(s), w.orders[ORDER].state)
    && w.orders[ORDER].terminal == TermNone
  }

  // Such an order takes the same calls as the deal, and none that leaves it open settles it.
  lemma DealTakesCall(w: World, deal: OrderRow, src: OrderState, a: Advance)
    requires OrderAt(w, deal, src) && Issued(deal, a) && TerminalOf(a.dst) == TermNone
    requires Legal(deal.kind, src, a.ev, a.actor, a.dst)
    ensures Issued(w.orders[ORDER], a)
    ensures Legal(w.orders[ORDER].kind, w.orders[ORDER].state, a.ev, a.actor, a.dst)
    ensures SettleCall(Cfg(), w.chain, ORDER, w.orders[ORDER], TerminalOf(a.dst), a.score, GoodSeal()) == None
  {}

  // A call that moves the order on without ending it.
  lemma OrderMoves(w: World, deal: OrderRow, src: OrderState, a: Advance) returns (w': World)
    requires Calm(w) && OrderAt(w, deal, src) && Issued(deal, a) && Legal(deal.kind, src, a.ev, a.actor, a.dst)
    requires a.ev != EvBind && TerminalOf(a.dst) == TermNone && a.extra != ReturnReservation
    ensures Calm(w') && w'.chain == w.chain && w'.offers == w.offers && OrderAt(w', deal, a.dst)
  {
    DealTakesCall(w, deal, src, a);
    w' := CallGoesThrough(w, a, GoodSeal());
  }

  // ── an offer and an order of it ──

  function MakersOffer(): Offer {
    Offer(MAKER, Sell, TOKEN, 10, 10, Active)
  }

  function TakersOrder(): OrderRow {
    Taken(OFFER, MakersOffer(), TAKER, 10)
  }

  predicate Locked10(c: State, bound: uint256) {
    OFFER in c.listings && c.listings[OFFER] == Listing(MAKER_WALLET, TOKEN, 10, bound, true)
  }

  predicate AllTaken(w: World) {
    OFFER in w.offers && w.offers[OFFER] == Offer(MAKER, Sell, TOKEN, 10, 0, Filled)
  }

  predicate SliceIn(c: State, status: Status) {
    ORDER in c.positions && c.positions[ORDER] == Position(TOKEN, 10, MAKER_WALLET, TAKER_WALLET, OFFER, status)
  }

  lemma MakerLists() returns (w: World)
    ensures Calm(w) && w.orders == map[] && w.chain.positions == map[] && Locked10(w.chain, 0)
    ensures OFFER in w.offers && w.offers[OFFER] == MakersOffer()
  {
    w := Opens();
    var c := EscrowExample.MakerLocks(w.chain, OFFER);
    w := OthersAct(w, TxOf(MAKER_WALLET), LockListingCall(OFFER, TOKEN, 10));
    w := TakenUpAndStored(w, OfferBegins(OFFER, MAKER, Sell, TOKEN, 10), OfferPending(OFFER, MakersOffer()));
  }

  lemma UpToMatch() returns (w: World)
    ensures Calm(w) && OrderAt(w, TakersOrder(), Match) && AllTaken(w) && w.chain.positions == map[]
            && Locked10(w.chain, 0)
    ensures w.orders.Keys == {ORDER}
  {
    w := MakerLists();
    w := TakenUpAndStored(w, TakeBegins(ORDER, OFFER, TAKER, 10), TakePending(ORDER, TakersOrder()));
  }

  lemma UpToS1() returns (w: World)
    ensures Calm(w) && OrderAt(w, TakersOrder(), S1) && AllTaken(w) && w.chain.positions == map[]
            && Locked10(w.chain, 0)
  {
    w := UpToMatch();
    AcceptIsLegal();
    w := OrderMoves(w, TakersOrder(), Match, AcceptCall(Buy));
  }

  lemma AcceptIsLegal()
    ensures Legal(OTCTake, Match, EvAccept, Owner, S1)
  {
    Ticks.RowLeads(18, OTCTake, Match, EvAccept, Owner, S1);
  }

  lemma BindIsLegal()
    ensures Legal(OTCTake, S1, EvBind, System, S3)
  {
    Ticks.RowLeads(19, OTCTake, S1, EvBind, System, S3);
  }

  lemma BindBeginsSo(w: World, tx: Tx, seal: Seal, id: Id, a: Advance)
    requires id in w.orders && w.orders[id].terminal == TermNone && a.ev == EvBind
    requires Legal(w.orders[id].kind, w.orders[id].state, a.ev, a.actor, a.dst)
    requires PayeeRead(Cfg(), w.orders[id], seal) != 0 && seal.termsRead
    requires w.orders[id].amount <= MAX_UINT256 && w.orders[id].amount <= ListingAvailable(w.chain, w.orders[id].offer)
    requires Step(Dep(), w.chain, tx, BindOf(Cfg(), id, w.orders[id], seal)).Success?
    ensures BeginAdvance(Cfg(), w, tx, seal, id, a)
            == Success(w.(chain := Step(Dep(), w.chain, tx, BindOf(Cfg(), id, w.orders[id], seal)).value,
                          pending := w.pending + multiset{AdvancePending(id, a, BindAction)}))
  {
    CheckExactly(w.orders[id].kind, w.orders[id].state, a.ev, a.actor, a.dst);
  }

  // The contract binds the slice.
  lemma BindIsTakenUp(w: World) returns (begun: World)
    requires Reachable(Dep(), w.chain) && OneSigner(w.chain) && OrderAt(w, TakersOrder(), S1)
    requires ORDER !in w.chain.positions && Locked10(w.chain, 0)
    ensures BeginAdvance(Cfg(), w, TxOf(SIGNER), GoodSeal(), ORDER, BindCall()) == Success(begun)
    ensures begun == w.(chain := begun.chain, pending := w.pending + multiset{BoundPending(ORDER)})
    ensures Reachable(Dep(), begun.chain) && OneSigner(begun.chain)
    ensures SliceIn(begun.chain, Escrowed) && Locked10(begun.chain, 10)
  {
    var c := SliceIsCut(w.chain, OFFER);
    BindIsLegal();
    BindBeginsSo(w, TxOf(SIGNER), GoodSeal(), ORDER, BindCall());
    begun := w.(chain := c, pending := w.pending + multiset{BoundPending(ORDER)});
  }

  lemma BindIsStored(begun: World) returns (w': World)
    requires OrderAt(begun, TakersOrder(), S1) && begun.pending == multiset{BoundPending(ORDER)}
    requires RowOk(begun.orders[ORDER], begun.offers)
    ensures w' == CommitCall(begun, BoundPending(ORDER))
    ensures OrderAt(w', TakersOrder(), S3) && w'.chain == begun.chain && w'.offers == begun.offers
    ensures w'.pending == multiset{}
  {
    BindIsLegal();
    BindCommits(begun, ORDER);
    w' := CommitCall(begun, BoundPending(ORDER));
  }

  lemma UpToS3() returns (w: World)
    ensures Calm(w) && OrderAt(w, TakersOrder(), S3) && AllTaken(w) && SliceIn(w.chain, Escrowed)
            && Locked10(w.chain, 10)
  {
    var s1 := UpToS1();
    var begun := BindIsTakenUp(s1);
    CallIsTakenUp(s1, ORDER, BindCall(), GoodSeal());
    ReachableIsOk(Cfg(), s1);
    assert RowOk(s1.orders[ORDER], s1.offers);
    w := BindIsStored(begun);
  }

  lemma ReceiptIsLegal()
    ensures Legal(OTCTake, S3, EvReceipt, Owner, S3V)
  {
    Ticks.RowLeads(22, OTCTake, S3, EvReceipt, Owner, S3V);
  }

  lemma VerifyIsLegal()
    ensures Legal(OTCTake, S3V, EvVerify, Counterparty, S4)
  {
    Ticks.RowLeads(24, OTCTake, S3V, EvVerify, Counterparty, S4);
  }

  lemma ReceiptComes(w: World) returns (w': World)
    requires Calm(w) && OrderAt(w, TakersOrder(), S3)
    ensures Calm(w') && OrderAt(w', TakersOrder(), S3V) && w'.chain == w.chain
  {
    ReceiptIsLegal();
    w' := OrderMoves(w, TakersOrder(), S3, ReceiptCall(Owner, TAKER));
  }

  lemma ReceiptIsVerified(w: World) returns (w': World)
    requires Calm(w) && OrderAt(w, TakersOrder(), S3V)
    ensures Calm(w') && OrderAt(w', TakersOrder(), S4) && w'.chain == w.chain
  {
    VerifyIsLegal();
    w' := OrderMoves(w, TakersOrder(), S3V, VerifyCall(Counterparty));
  }

  lemma UpToS4() returns (w: World)
    ensures Calm(w) && OrderAt(w, TakersOrder(), S4) && SliceIn(w.chain, Escrowed)
  {
    w := UpToS3();
    w := ReceiptComes(w);
    w := ReceiptIsVerified(w);
  }

  // ── an offer sold beyond its cover ──

  // Calls that never overlap, no crash, every read answered, only the platform binding: and yet, once the
  // buyer disputes on the contract and then cancels with the platform, ten tokens are on offer and none is
  // free.
  lemma BackingCanFail() returns (w: World)
    ensures WorldReachable(Cfg(), w)
    ensures OFFER in w.offers && w.offers[OFFER].side == Sell && w.offers[OFFER].status == Active
            && w.offers[OFFER].remaining == 10
    ensures OFFER in w.chain.listings && w.chain.listings[OFFER].open
    ensures w.chain.listings[OFFER].total == w.chain.listings[OFFER].bound
    ensures !Backed(w, OFFER)
  {
    var s3 := UpToS3();
    s3 := BuyerDisputes(s3);
    CancelFromS3();
    w := CancelsIdly(s3, GoodSeal());
    NothingFree(w);
  }

  lemma BuyerDisputes(w: World) returns (w': World)
    requires Calm(w) && SliceIn(w.chain, Escrowed)
    ensures Calm(w') && w' == w.(chain := w'.chain) && w'.chain.listings == w.chain.listings
    ensures SliceIn(w'.chain, Status.Disputed)
  {
    w' := OthersAct(w, TxOf(TAKER_WALLET), RaiseDisputeCall(ORDER));
  }

  lemma NothingFree(w: World)
    requires WorldReachable(Cfg(), w) && OFFER in w.offers && w.offers[OFFER].remaining > 0
    requires OFFER in w.chain.listings && w.chain.listings[OFFER].total == w.chain.listings[OFFER].bound
    ensures !Backed(w, OFFER)
  {
    ReachableIsOk(Cfg(), w);
    AwaitingIsUnbound(Cfg(), w, OFFER);
  }

  // What the buyer's cancelling leaves, with or without the order's terms.
  ghost predicate CancelledFrom(w: World, w': World, seal: Seal) {
    && w'.chain == w.chain && w'.orders.Keys == w.orders.Keys
    && ORDER in w'.orders && w'.orders[ORDER].terminal == TermCancelled
    && (if seal.termsRead then ReserveQty(w.offers, OFFER, 10) == Success(w'.offers) else w'.offers == w.offers)
  }

  lemma CancelIsStored(w: World, seal: Seal)
    requires ORDER in w.orders && w.orders[ORDER].terminal == TermNone
    requires w.orders[ORDER].kind == OTCTake && w.orders[ORDER].offer == OFFER && w.orders[ORDER].amount == 10
    requires RowOk(w.orders[ORDER], w.offers) && Legal(OTCTake, w.orders[ORDER].state, EvCancel, Owner, Cancelled)
    ensures CancelledFrom(w, CommitCall(w, IdleCancel(w.orders[ORDER], seal, ORDER)), seal)
  {
    CarriedIsSent(w.orders[ORDER], CancelCall(), seal);
    var a := Carried(w.orders[ORDER], CancelCall(), seal);
    assert a.extra == (if seal.termsRead then ReturnReservation else Nothing);
    assert TerminalOf(a.dst) == TermCancelled;
    ReturnCommits(w, ORDER, a, NoAction);
  }

  // The buyer cancels, and there is nothing to refund.
  lemma CancelsIdly(w: World, seal: Seal) returns (w': World)
    requires Calm(w) && ORDER in w.orders && SameDeal(TakersOrder(), w.orders[ORDER])
             && w.orders[ORDER].terminal == TermNone
    requires Legal(OTCTake, w.orders[ORDER].state, EvCancel, Owner, Cancelled)
    requires !(ORDER in w.chain.positions && w.chain.positions[ORDER].status == Escrowed)
    ensures WorldReachable(Cfg(), w') && CancelledFrom(w, w', seal)
  {
    var h, p := AdvanceBegins(TxOf(SIGNER), seal, ORDER, CancelCall()), IdleCancel(w.orders[ORDER], seal, ORDER);
    var mid := w.(pending := w.pending + multiset{p});
    ReachableIsOk(Cfg(), w);
    assert RowOk(w.orders[ORDER], w.offers);
    IdleReturn(Cfg(), w, TxOf(SIGNER), seal, ORDER, CancelCall());
    ReachableNext(Cfg(), w, h);
    ReachableNext(Cfg(), mid, Commits(p));
    CancelIsStored(mid, seal);
    w' := CommitCall(mid, p);
  }

  // Somebody else takes the listing for an id of their own, before there is any order.
  lemma OutsiderTakesTheCover() returns (w: World)
    ensures WorldReachable(Cfg(), w) && w.orders == map[]
    ensures OFFER in w.offers && w.offers[OFFER] == MakersOffer()
    ensures OFFER in w.chain.listings && w.chain.listings[OFFER].open && !Backed(w, OFFER)
  {
    w := MakerLists();
    var c := SliceIsCut(w.chain, OFFER);
    w := OthersAct(w, TxOf(TAKER_WALLET), BindListingLockCall(ORDER, OFFER, 10, TAKER_WALLET));
    NothingFree(w);
  }

  // The cover is lost without any dispute when a cancellation overlaps the binding: it is taken up before
  // and committed after it.
  lemma OverlapHappens() returns (w: World)
    ensures WorldReachable(Cfg(), w)
    ensures ORDER in w.orders && w.orders[ORDER].terminal == TermCancelled
    ensures ORDER in w.chain.positions && w.chain.positions[ORDER].status == Escrowed
    ensures LeakedOne(w.chain.positions, w.orders, OFFER, ORDER) == 10
  {
    var s1 := UpToS1();
    var begun := BothAreTakenUp(s1);
    StaleCancelLeaks(Cfg(), s1, TxOf(SIGNER), GoodSeal(), TxOf(SIGNER), GoodSeal(), ORDER);
    var p, q := BoundPending(ORDER), IdleCancel(s1.orders[ORDER], GoodSeal(), ORDER);
    CommitTwo(begun, p, q);
    w := CommitCall(CommitCall(begun, p), q);
  }

  lemma BothAreTakenUp(s1: World) returns (begun: World)
    requires Calm(s1) && OrderAt(s1, TakersOrder(), S1) && ORDER !in s1.chain.positions && Locked10(s1.chain, 0)
    ensures Overlapping(Cfg(), s1, TxOf(SIGNER), GoodSeal(), TxOf(SIGNER), GoodSeal(), ORDER)
    ensures begun == BothBegun(Cfg(), s1, TxOf(SIGNER), GoodSeal(), TxOf(SIGNER), GoodSeal(), ORDER)
    ensures WorldReachable(Cfg(), begun)
    ensures BoundPending(ORDER) in begun.pending && IdleCancel(s1.orders[ORDER], GoodSeal(), ORDER) in begun.pending
  {
    ReachableIsOk(Cfg(), s1);
    var first := CancelIsTakenUp(s1);
    assert Serves(s1.orders, ORDER, CancelCall()) && Serves(s1.orders, ORDER, BindCall());
    begun := BindFollows(first);
  }

  lemma BindFollows(first: World) returns (begun: World)
    requires WorldReachable(Cfg(), first) && Reachable(Dep(), first.chain) && OneSigner(first.chain)
    requires OrderAt(first, TakersOrder(), S1) && ORDER !in first.chain.positions && Locked10(first.chain, 0)
    ensures BeginAdvance(Cfg(), first, TxOf(SIGNER), GoodSeal(), ORDER, BindCall()) == Success(begun)
    ensures WorldReachable(Cfg(), begun) && begun.pending == first.pending + multiset{BoundPending(ORDER)}
  {
    begun := BindIsTakenUp(first);
    ReachableNext(Cfg(), first, AdvanceBegins(TxOf(SIGNER), GoodSeal(), ORDER, BindCall()));
  }

  lemma CancelIsTakenUp(w: World) returns (first: World)
    requires WorldReachable(Cfg(), w) && OrderAt(w, TakersOrder(), S1) && ORDER !in w.chain.positions
    ensures BeginAdvance(Cfg(), w, TxOf(SIGNER), GoodSeal(), ORDER, CancelCall()) == Success(first)
    ensures first == w.(pending := w.pending + multiset{IdleCancel(w.orders[ORDER], GoodSeal(), ORDER)})
    ensures WorldReachable(Cfg(), first)
  {
    CancelIsLegal(w.orders[ORDER].state);
    IdleReturn(Cfg(), w, TxOf(SIGNER), GoodSeal(), ORDER, CancelCall());
    var h := AdvanceBegins(TxOf(SIGNER), GoodSeal(), ORDER, CancelCall());
    ReachableNext(Cfg(), w, h);
    first := Next(Cfg(), w, h);
  }

  lemma CommitTwo(w: World, p: Pending, q: Pending)
    requires WorldReachable(Cfg(), w) && p in w.pending && q in w.pending && p != q
    ensures WorldReachable(Cfg(), CommitCall(CommitCall(w, p), q))
  {
    ReachableNext(Cfg(), w, Commits(p));
    assert CommitCall(w, p).pending == w.pending - multiset{p};
    ReachableNext(Cfg(), CommitCall(w, p), Commits(q));
  }

  // ── reads that fail ──

  // One failed read of the buyer's row, and the order is completed with the coins still in escrow.
  lemma UnpaidCompletionHappens() returns (w: World)
    ensures WorldReachable(Cfg(), w)
    ensures ORDER in w.orders && w.orders[ORDER].terminal == TermCompleted && w.orders[ORDER].kind == OTCTake
    ensures ORDER in w.chain.positions && w.chain.positions[ORDER].status == Escrowed
  {
    w := UpToS4();
    PayIsLegal();
    w := CallGoesThrough(w, PayCall(), GoodSeal().(ownerRead := false));
  }

  // One failed read of the order's terms, and a cancelled order keeps its offer's stock for ever: nothing
  // is left of an offer of which no order is open.
  lemma LostStockHappens() returns (w: World)
    ensures WorldReachable(Cfg(), w)
    ensures w.orders.Keys == {ORDER} && w.orders[ORDER].terminal == TermCancelled
    ensures OFFER in w.offers && w.offers[OFFER].qty == 10 && w.offers[OFFER].remaining == 0
  {
    w := UpToMatch();
    Ticks.RowLeads(28, OTCTake, Match, EvCancel, Owner, Cancelled);
    w := CancelsIdly(w, GoodSeal().(termsRead := false));
  }

  // ── crashes ──

  lemma PayIsLegal()
    ensures Legal(OTCTake, S4, EvTick, System, S5)
  {
    Ticks.RowLeads(27, OTCTake, S4, EvTick, System, S5);
  }

  lemma ContractPays(c: State, o: OrderRow, score: nat)
    requires Inv(Dep(), c) && OneSigner(c) && PayeeRead(Cfg(), o, GoodSeal()) != 0
    requires ORDER in c.positions && c.positions[ORDER].status == Escrowed
    ensures Act(Cfg(), c, TxOf(SIGNER), SettleCall(Cfg(), c, ORDER, o, TermCompleted, score, GoodSeal())).Success?
  {
    OneSignature(c, ORDER, ToRelease, score);
    ReleaseExactly(Dep(), c, TxOf(SIGNER), Attestation(ORDER, ToRelease, score, 0, 0), [OneSig()]);
  }

  lemma ReleaseIsTakenUp(w: World, a: Advance)
    requires Calm(w) && ORDER in w.orders && w.orders[ORDER].terminal == TermNone && Issued(w.orders[ORDER], a)
    requires Legal(w.orders[ORDER].kind, w.orders[ORDER].state, a.ev, a.actor, a.dst)
    requires a.ev != EvBind && TerminalOf(a.dst) == TermCompleted && PayeeRead(Cfg(), w.orders[ORDER], GoodSeal()) != 0
    requires ORDER in w.chain.positions && w.chain.positions[ORDER].status == Escrowed
    ensures WorldOk(Cfg(), w) && BeginAdvance(Cfg(), w, TxOf(SIGNER), GoodSeal(), ORDER, a).Success?
    ensures WorldReachable(Cfg(), Crashed(Cfg(), w, TxOf(SIGNER), GoodSeal(), ORDER, a))
    ensures PendingOf(Cfg(), w, GoodSeal(), ORDER, a).out == ReleaseAction
  {
    ReachableIsOk(Cfg(), w);
    ContractPays(w.chain, w.orders[ORDER], a.score);
    SettleBeginsExactly(Cfg(), w, TxOf(SIGNER), GoodSeal(), ORDER, a);
    CallIsTakenUp(w, ORDER, a, GoodSeal());
    SettleNames(Cfg(), w.chain, ORDER, w.orders[ORDER], TermCompleted, a.score, GoodSeal());
  }

  // One crash at the wrong moment, and the buyer has the coins while the order stays at s4.
  lemma StrandingHappens() returns (w: World)
    ensures WorldReachable(Cfg(), w) && Stuck(w, ORDER)
    ensures IsS4(w.orders[ORDER].state) && IsReleased(w.chain.positions, ORDER)
  {
    var s4 := UpToS4();
    var a, seal := PayCall(), GoodSeal();
    PayIsLegal();
    ReleaseIsTakenUp(s4, a);
    ReleaseCrashSticks(Cfg(), s4, TxOf(SIGNER), seal, ORDER, a);
    CompletingPaysExactly(Cfg(), s4, TxOf(SIGNER), seal, ORDER, a);
    CrashLeavesTheChain(Cfg(), s4, TxOf(SIGNER), seal, ORDER, a);
    w := Crashed(Cfg(), s4, TxOf(SIGNER), seal, ORDER, a);
  }

  // And one crash after a binding leaves the order at s1 with its slice cut.
  lemma CrashedBindHappens() returns (w: World)
    ensures WorldReachable(Cfg(), w) && Stuck(w, ORDER)
    ensures IsS1(w.orders[ORDER].state) && ORDER in w.chain.positions && w.chain.positions[ORDER].status == Escrowed
  {
    var s1 := UpToS1();
    var begun := BindIsTakenUp(s1);
    CallIsTakenUp(s1, ORDER, BindCall(), GoodSeal());
    BindCrashSticks(Cfg(), s1, TxOf(SIGNER), GoodSeal(), ORDER, BindCall());
    CrashLeavesTheChain(Cfg(), s1, TxOf(SIGNER), GoodSeal(), ORDER, BindCall());
    w := Crashed(Cfg(), s1, TxOf(SIGNER), GoodSeal(), ORDER, BindCall());
  }

  // ── a conditional transfer paid and then expired ──

  function Transfer(): OrderRow {
    Conditional(MAKER, TAKER, TOKEN, 10, Immediate)
  }

  lemma TransferIsMade() returns (w: World)
    ensures Calm(w) && OrderAt(w, Transfer(), Fund) && w.chain == Fresh()
  {
    var empty := Opens();
    var h := ConditionalMade(ORDER, MAKER, TAKER, TOKEN, 10, Immediate);
    ReachableNext(Cfg(), empty, h);
    w := Next(Cfg(), empty, h);
  }

  lemma PayerChoosesFunding(w: World) returns (w': World)
    requires Calm(w) && OrderAt(w, Transfer(), Fund)
    ensures Calm(w') && OrderAt(w', Transfer(), Fund) && w'.orders[ORDER].fundingVia && w'.chain == w.chain
  {
    w' := TakenUpAndStored(w, FundingBegins(ORDER), FundingPending(ORDER));
  }

  // The transfer is made, its payer chooses how to fund it, and deposits.
  lemma UpToFund() returns (w: World)
    ensures Calm(w) && OrderAt(w, Transfer(), Fund) && w.orders[ORDER].fundingVia
    ensures ORDER in w.chain.positions && w.chain.positions[ORDER].status == Escrowed
  {
    w := TransferIsMade();
    w := PayerChoosesFunding(w);
    var c := PayerDeposits(w.chain);
    w := OthersAct(w, TxOf(MAKER_WALLET), DepositCall(ORDER, TOKEN, 10, TAKER_WALLET));
  }

  // What the scheduler does with it once the deposit has settled.
  lemma TransferPlans(o: OrderRow, f: Ticks.Finding)
    requires SameDeal(Transfer(), o) && f.settled && f.termsRead
    ensures Aims(To(Fund), o.state) && o.fundingVia ==> Ticks.PlanOf(o, f) == Ticks.Go(FundedCall(Locked))
    ensures Aims(To(Locked), o.state) ==> Ticks.PlanOf(o, f) == Ticks.Go(TickCall(Releasing, Nothing))
  {}

  lemma DepositSettles(w: World) returns (w': World)
    requires Calm(w) && OrderAt(w, Transfer(), Fund) && w.orders[ORDER].fundingVia
    ensures Ticks.PlanOf(w.orders[ORDER], Ticks.HoldVote()) == Ticks.Go(FundedCall(Locked))
    ensures Calm(w') && OrderAt(w', Transfer(), Locked) && w'.chain == w.chain
  {
    TransferPlans(w.orders[ORDER], Ticks.HoldVote());
    Ticks.EarlyTicksLegal();
    w' := OrderMoves(w, Transfer(), Fund, FundedCall(Locked));
  }

  lemma NothingToWaitFor(w: World) returns (w': World)
    requires Calm(w) && OrderAt(w, Transfer(), Locked)
    ensures Ticks.PlanOf(w.orders[ORDER], Ticks.HoldVote()) == Ticks.Go(TickCall(Releasing, Nothing))
    ensures Calm(w') && OrderAt(w', Transfer(), Releasing) && w'.chain == w.chain
  {
    TransferPlans(w.orders[ORDER], Ticks.HoldVote());
    Ticks.EarlyTicksLegal();
    w' := OrderMoves(w, Transfer(), Locked, TickCall(Releasing, Nothing));
  }

  lemma UpToReleasing() returns (w: World)
    ensures Calm(w) && OrderAt(w, Transfer(), Releasing)
    ensures ORDER in w.chain.positions && w.chain.positions[ORDER].status == Escrowed
  {
    w := UpToFund();
    w := DepositSettles(w);
    w := NothingToWaitFor(w);
  }

  // The vote releases and crashes; the next vote holds; the order lapses. It is on record as expired, and
  // the payee has the coins.
  lemma PaidThenExpiredHappens() returns (w: World)
    ensures WorldReachable(Cfg(), w)
    ensures ORDER in w.orders && w.orders[ORDER].terminal == TermExpired && IsReleased(w.chain.positions, ORDER)
  {
    var voting := UpToReleasing();
    var a, seal := VoteCall(OrderState.Released, 80), GoodSeal();
    Ticks.VotesLegal();
    ReleaseIsTakenUp(voting, a);
    CrashedVoteCanLapse(Cfg(), voting, TxOf(SIGNER), seal, ORDER, a);
    w := Lapses(Crashed(Cfg(), voting, TxOf(SIGNER), seal, ORDER, a));
  }

  lemma Lapses(crashed: World) returns (w: World)
    requires WorldReachable(Cfg(), crashed) && PaidButLapses(Cfg(), crashed, ORDER)
    requires crashed.orders[ORDER].kind == ConditionalTransfer
    ensures WorldReachable(Cfg(), w)
    ensures ORDER in w.orders && w.orders[ORDER].terminal == TermExpired && IsReleased(w.chain.positions, ORDER)
  {
    var (held, lapsed) := HeldThenLapsed(crashed, ORDER);
    Follows(crashed, held, VoteCall(AwaitingMe, 0));
    Follows(held, lapsed, TickCall(Expired, Nothing));
    w := lapsed;
  }

  lemma Follows(w: World, w': World, a: Advance)
    requires WorldReachable(Cfg(), w) && Serves(w.orders, ORDER, a) && Uninterrupts(Cfg(), w, w', ORDER, a)
    ensures WorldReachable(Cfg(), w')
  {
    var p := AdvancePending(ORDER, a, NoAction);
    var mid := w.(pending := w.pending + multiset{p});
    assert BeginAdvance(Cfg(), w, TxOf(SIGNER), GoodSeal(), ORDER, a) == Success(mid);
    ReachableNext(Cfg(), w, AdvanceBegins(TxOf(SIGNER), GoodSeal(), ORDER, a));
    ReachableNext(Cfg(), mid, Commits(p));
  }

  // ── refusals and rulings ──

  // A buy order in s1 whose terms cannot be read: the scheduler's call is refused, whoever sends it.
  lemma RefusedTickHappens() returns (w: World, found: Ticks.Finding)
    ensures WorldReachable(Cfg(), w) && ORDER in w.orders && w.orders[ORDER].terminal == TermNone
    ensures Ticks.Unlisted(w.orders[ORDER], found) && Ticks.PlanOf(w.orders[ORDER], found).Go?
    ensures forall tx, seal :: BeginAdvance(Cfg(), w, tx, seal, ORDER, Ticks.PlanOf(w.orders[ORDER], found).a).Failure?
  {
    w := UpToS1();
    found := Ticks.HoldVote().(termsRead := false);
    ReachableIsOk(Cfg(), w);
    assert RowOk(w.orders[ORDER], w.offers);
    var a := TickCall(Cancelled, ReturnReservation);
    Ticks.UnlistedTickFails(w.orders[ORDER], found);
    forall tx, seal ensures BeginAdvance(Cfg(), w, tx, seal, ORDER, a).Failure? {
      Ticks.NoTickOutOfS1(System, Cancelled);
      SettleBeginsExactly(Cfg(), w, tx, seal, ORDER, a);
    }
  }

  lemma DisputeIsLegal()
    ensures Legal(OTCTake, S3, EvDispute, Owner, OrderState.Disputed)
  {
    Ticks.RowLeads(23, OTCTake, S3, EvDispute, Owner, OrderState.Disputed);
  }

  lemma UpToDispute() returns (w: World)
    ensures Calm(w) && ORDER in w.orders && InDispute(w.orders[ORDER]) && SameDeal(TakersOrder(), w.orders[ORDER])
    ensures SliceIn(w.chain, Escrowed)
  {
    w := UpToS3();
    DisputeIsLegal();
    w := CallGoesThrough(w, DisputeCall(Owner), GoodSeal());
  }

  // Once the contract asks for a score, no ruling for the buyer of a dispute goes through that reads whom to
  // pay, although the coins are in escrow and whoever signs.
  lemma RefusedRulingHappens() returns (w: World)
    ensures WorldReachable(Cfg(), w) && ORDER in w.orders && InDispute(w.orders[ORDER])
    ensures w.chain.minScore == 60 && SliceIn(w.chain, Escrowed)
    ensures forall tx, seal :: PayeeRead(Cfg(), w.orders[ORDER], seal) != 0 ==>
              BeginRuling(Cfg(), w, tx, seal, ORDER, true).Failure?
  {
    var before := UpToDispute();
    w := AsksForScore(before);
    ReachableIsOk(Cfg(), w);
    forall tx, seal | PayeeRead(Cfg(), w.orders[ORDER], seal) != 0
      ensures BeginRuling(Cfg(), w, tx, seal, ORDER, true).Failure?
    {
      RulingReleasesExactly(Cfg(), w, tx, seal, ORDER);
    }
  }

  lemma AsksForScore(w: World) returns (w': World)
    requires Calm(w)
    ensures WorldReachable(Cfg(), w') && w'.orders == w.orders
    ensures w'.chain.positions == w.chain.positions && w'.chain.minScore == 60
  {
    var h := Others(TxOf(SIGNER), SetSignersCall([SIGNER], 1, 60));
    ReachableKeeps(Dep(), w.chain);
    SignerRotationExactly(w.chain, TxOf(SIGNER), [SIGNER], 1, 60);
    ReachableNext(Cfg(), w, h);
    w' := Next(Cfg(), w, h);
  }

  // A ruling for the buyer releases and crashes, and one for the seller is recorded: cancelled on record, and
  // the buyer has the coins.
  lemma ContradictedRulingHappens() returns (w: World)
    ensures WorldReachable(Cfg(), w)
    ensures ORDER in w.orders && w.orders[ORDER].terminal == TermCancelled && IsReleased(w.chain.positions, ORDER)
  {
    var ruling := UpToDispute();
    var crashed := RulesAndCrashes(ruling);
    CrashedRulingCanBeContradicted(Cfg(), ruling, TxOf(SIGNER), GoodSeal(), TxOf(SIGNER), GoodSeal(), ORDER);
    var p := RulingPending(ORDER, false, NoAction);
    var other := BeginRuling(Cfg(), crashed, TxOf(SIGNER), GoodSeal(), ORDER, false).value;
    ReachableNext(Cfg(), crashed, RulingBegins(TxOf(SIGNER), GoodSeal(), ORDER, false));
    SettledRulingWaits(crashed);
    ReachableNext(Cfg(), other, Commits(p));
    w := CommitCall(other, p);
  }

  lemma SettledRulingWaits(w: World)
    requires BeginRuling(Cfg(), w, TxOf(SIGNER), GoodSeal(), ORDER, false).Success?
    requires IsReleased(w.chain.positions, ORDER)
    ensures RulingPending(ORDER, false, NoAction)
            in BeginRuling(Cfg(), w, TxOf(SIGNER), GoodSeal(), ORDER, false).value.pending
  {}

  lemma RulesAndCrashes(w: World) returns (crashed: World)
    requires Calm(w) && ORDER in w.orders && InDispute(w.orders[ORDER]) && SameDeal(TakersOrder(), w.orders[ORDER])
    requires SliceIn(w.chain, Escrowed)
    ensures WorldOk(Cfg(), w) && BeginRuling(Cfg(), w, TxOf(SIGNER), GoodSeal(), ORDER, true).Success?
    ensures crashed == CrashedRuling(Cfg(), w, TxOf(SIGNER), GoodSeal(), ORDER, true) && WorldReachable(Cfg(), crashed)
    ensures IsReleased(crashed.chain.positions, ORDER)
  {
    var seal := GoodSeal();
    ReachableIsOk(Cfg(), w);
    ContractPays(w.chain, w.orders[ORDER], 0);
    PlatformLimits.RulingBegins(Cfg(), w, TxOf(SIGNER), seal, ORDER, true);
    SettlePaysExactly(Cfg(), w.chain, TxOf(SIGNER), seal, ORDER, w.orders[ORDER], 0);
    var begun := BeginRuling(Cfg(), w, TxOf(SIGNER), seal, ORDER, true).value;
    ReachableNext(Cfg(), w, RulingBegins(TxOf(SIGNER), seal, ORDER, true));
    ReachableNext(Cfg(), begun, Crashes(RulingOf(Cfg(), w, seal, ORDER, true)));
    crashed := CrashedRuling(Cfg(), w, TxOf(SIGNER), seal, ORDER, true);
  }
}
