// The service's methods, which change the database in place: the reservation of an offer's stock, one
// uninterrupted call that moves an order, and one uninterrupted ruling.
module PlatformService {
  import opened Results
  import opened EscrowModel
  import opened OrderMachine
  import opened Orders
  import opened Platform
  import opened PlatformBooks
  import opened PlatformReads

  // One call that is not interrupted: taken up, acted on, and committed at once. It reports the error
  // that stopped it, before or after the chain action.
  function Uninterrupted(w: World, begun: Result<World, PlatformError>, p: Pending): (World, Option<PlatformError>) {
    match begun
    case Failure(e) => (w, Some(e))
    case Success(mid) =>
      match Store(mid.offers, mid.orders, p)
      case Failure(e) => (mid.(pending := w.pending), Some(e))
      case Success((offers, orders)) => (World(mid.chain, offers, orders, w.pending), None)
  }

  // It is the first half followed by the second, so whatever holds of every run holds after it.
  lemma UninterruptedIsBeginAndCommit(w: World, begun: Result<World, PlatformError>, p: Pending)
    requires begun.Success? ==> begun.value.pending == w.pending + multiset{p}
    ensures Uninterrupted(w, begun, p).0 == if begun.Success? then CommitCall(begun.value, p) else w
  {
    assert w.pending + multiset{p} - multiset{p} == w.pending;
  }

  // What waits for its commit, for a call or a ruling on an order that may not be there.
  function CallPending(cfg: Config, w: World, seal: Seal, id: Id, a: Advance): Pending {
    if id in w.orders then PendingOf(cfg, w, seal, id, a) else AdvancePending(id, a, NoAction)
  }

  function RulingWaits(cfg: Config, w: World, seal: Seal, id: Id, release: bool): Pending {
    RulingPending(id, release,
                  if id in w.orders
                  then ActionName(SettleCall(cfg, w.chain, id, w.orders[id], RulingTerm(release), 0, seal))
                  else NoAction)
  }

  // The call that goes to the contract, once order and transition have been checked.
  function Checked(cfg: Config, w: World, seal: Seal, id: Id, a: Advance): Result<Option<Call>, PlatformError> {
    if id !in w.orders then Failure(NoSuchOrder)
    else if w.orders[id].terminal != TermNone then Failure(IsTerminal)
    else match Check(w.orders[id].kind, w.orders[id].state, a.ev, a.actor, To(a.dst))
      case Failure(_) => Failure(IllegalTransition)
      case Success(term) => ActionOf(cfg, w.chain, id, w.orders[id], a, term, seal)
  }

  lemma BeginsAfterChecks(cfg: Config, w: World, tx: Tx, seal: Seal, id: Id, a: Advance)
    ensures BeginAdvance(cfg, w, tx, seal, id, a) ==
      match Checked(cfg, w, seal, id, a)
      case Failure(e) => Failure(e)
      case Success(call) =>
        match Act(cfg, w.chain, tx, call)
        case Failure(e) => Failure(e)
        case Success(after) =>
          Success(w.(chain := after, pending := w.pending + multiset{CallPending(cfg, w, seal, id, a)}))
    ensures Checked(cfg, w, seal, id, a).Success? ==>
      CallPending(cfg, w, seal, id, a)
      == AdvancePending(id, Carried(w.orders[id], a, seal), ActionName(Checked(cfg, w, seal, id, a).value))
  {
    if id in w.orders {
      CheckExactly(w.orders[id].kind, w.orders[id].state, a.ev, a.actor, a.dst);
    }
  }

  lemma UninterruptedKeeps(cfg: Config, w: World, tx: Tx, seal: Seal, id: Id, a: Advance)
    requires WorldOk(cfg, w) && Sendable(cfg.dep, tx) && Serves(w.orders, id, a)
    ensures WorldOk(cfg, Uninterrupted(w, BeginAdvance(cfg, w, tx, seal, id, a), CallPending(cfg, w, seal, id, a)).0)
  {
    var begun, p := BeginAdvance(cfg, w, tx, seal, id, a), CallPending(cfg, w, seal, id, a);
    if begun.Success? {
      BeginsAfterChecks(cfg, w, tx, seal, id, a);
      BeginAdvanceKeeps(cfg, w, tx, seal, id, a);
      CommitKeeps(cfg, begun.value, p);
    }
    UninterruptedIsBeginAndCommit(w, begun, p);
  }

  lemma UninterruptedRulingKeeps(cfg: Config, w: World, tx: Tx, seal: Seal, id: Id, release: bool)
    requires WorldOk(cfg, w) && Sendable(cfg.dep, tx)
    ensures WorldOk(cfg, Uninterrupted(w, BeginRuling(cfg, w, tx, seal, id, release),
                                       RulingWaits(cfg, w, seal, id, release)).0)
  {
    var begun, p := BeginRuling(cfg, w, tx, seal, id, release), RulingWaits(cfg, w, seal, id, release);
    if begun.Success? {
      BeginRulingKeeps(cfg, w, tx, seal, id, release);
      CommitKeeps(cfg, begun.value, p);
    }
    UninterruptedIsBeginAndCommit(w, begun, p);
  }

  class Service {
    const cfg: Config
    var chain: State
    var offers: Offers
    var orders: Rows

    constructor (cfg: Config, chain: State)
      ensures this.cfg == cfg && Now() == Empty(chain)
    {
      this.cfg, this.chain := cfg, chain;
      offers, orders := map[], map[];
    }

    ghost function Now(): World
      reads this
    {
      World(chain, offers, orders, multiset{})
    }

    twostate predicate Did(outcome: (World, Option<PlatformError>), new refused: Option<PlatformError>)
      reads this
    {
      refused == outcome.1 && Now() == outcome.0
    }

    // Takes `delta` onto an offer's stock. Nothing is written when that would oversell it.
    method TakeStock(f: Id, delta: int) returns (refused: Option<PlatformError>)
      modifies this`offers
      ensures match ReserveQty(old(offers), f, delta)
        case Success(after) => refused == None && offers == after
        case Failure(e) => refused == Some(e) && offers == old(offers)
    {
      if f !in offers { return Some(NoSuchOffer); }
      var x := offers[f];
      var next := x.remaining + delta;
      if next < 0 { return Some(Oversold); }
      var status := x.status;
      if next == 0 && x.status == Active {
        status := Filled;
      }
      if next > 0 && x.status == Filled {
        status := Active;
      }
      offers := offers[f := x.(remaining := next, status := status)];
      return None;
    }

    // Sends a transaction to the contract, if there is one to send.
    method Send(tx: Tx, call: Option<Call>) returns (refused: Option<PlatformError>)
      modifies this`chain
      ensures match Act(cfg, old(chain), tx, call)
        case Success(after) => refused == None && chain == after
        case Failure(e) => refused == Some(e) && chain == old(chain)
    {
      if call.None? { return None; }
      var r := Step(cfg.dep, chain, tx, call.value);
      if r.Failure? { return Some(ChainRefused(r.error)); }
      chain := r.value;
      return None;
    }

    // The only way an order moves: check, then the chain, then the database in one transaction that
    // reads the order afresh. What the call could not read before it goes on without.
    method AdvanceAuth(tx: Tx, seal: Seal, id: Id, a: Advance) returns (refused: Option<PlatformError>)
      modifies this
      ensures Did(Uninterrupted(old(Now()), BeginAdvance(cfg, old(Now()), tx, seal, id, a),
                                CallPending(cfg, old(Now()), seal, id, a)), refused)
    {
      BeginsAfterChecks(cfg, Now(), tx, seal, id, a);
      if id !in orders { return Some(NoSuchOrder); }
      if orders[id].terminal != TermNone { return Some(IsTerminal); }
      var term := ScanEdges(Table(), orders[id].kind, orders[id].state, a.ev, a.actor, To(a.dst));
      if term.Failure? { return Some(IllegalTransition); }
      var call := ActionOf(cfg, chain, id, orders[id], a, term.value, seal);
      if call.Failure? { return Some(call.error); }
      assert Checked(cfg, Now(), seal, id, a) == call;
      refused := Send(tx, call.value);
      if refused.Some? { return; }
      refused := CommitAdvance(id, Carried(orders[id], a, seal), ActionName(call.value));
    }

    // Everything is written, the chain action with it, or nothing is.
    method CommitAdvance(id: Id, a: Advance, out: Action) returns (refused: Option<PlatformError>)
      modifies this`offers, this`orders
      ensures match StoreAdvance(old(offers), old(orders), id, a, out)
        case Success((F, O)) => refused == None && offers == F && orders == O
        case Failure(e) => refused == Some(e) && offers == old(offers) && orders == old(orders)
    {
      if id !in orders { return Some(NoSuchOrder); }
      var row := Advanced(orders[id], a);
      if row.Failure? { return Some(IllegalTransition); }
      if a.extra == ReturnReservation && row.value.kind == OTCTake {
        refused := TakeStock(row.value.offer, row.value.amount);
        if refused.Some? { return; }
      }
      orders := orders[id := Recorded(row.value, out)];
      return None;
    }

    // The platform's ruling on a dispute: the chain first, then the row, past the table.
    method ResolveDispute(tx: Tx, seal: Seal, id: Id, release: bool) returns (refused: Option<PlatformError>)
      modifies this
      ensures Did(Uninterrupted(old(Now()), BeginRuling(cfg, old(Now()), tx, seal, id, release),
                                RulingWaits(cfg, old(Now()), seal, id, release)), refused)
    {
      if id !in orders { return Some(NoSuchOrder); }
      if orders[id].state != OrderState.Disputed { return Some(NotInDispute); }
      var term := if release then TermCompleted else TermCancelled;
      var call := SettleCall(cfg, chain, id, orders[id], term, 0, seal);
      refused := Send(tx, call);
      if refused.Some? { return; }
      var row := Orders.Ruled(orders[id], release);
      if row.Failure? { return Some(NotInDispute); }
      orders := orders[id := Recorded(row.value, ActionName(call))];
      return None;
    }
  }
}
