// Orders that a crash leaves where the scheduler cannot move them: bound, or paid out, on the contract
// but not in the database.
module PlatformStuck {
  import opened Results
  import opened EscrowModel
  import opened EscrowBooks
  import opened EscrowTheorems
  import opened OrderMachine
  import opened Orders
  import opened Platform
  import opened PlatformBooks
  import opened PlatformReads
  import opened PlatformCauses
  import opened PlatformBacking
  import opened PlatformLimits
  import Ticks

  // ── where an order can be stuck ──

  // The slice is cut already, but the order is still waiting for it to be.
  predicate BoundAtS1(o: OrderRow, P: Positions, id: Id) {
    o.side == Buy && IsS1(o.state) && id in P
  }

  // The coins are out, or back, but the order is still waiting to be paid.
  predicate SettledAtS4(o: OrderRow, P: Positions, id: Id) {
    IsS4(o.state) && id in P && Settled(P[id])
  }

  predicate StuckRow(o: OrderRow, P: Positions, id: Id) {
    && o.kind == OTCTake && o.terminal == TermNone
    && (BoundAtS1(o, P, id) || SettledAtS4(o, P, id))
  }

  ghost predicate NoneUnderWay(Q: multiset<Pending>, id: Id) {
    forall a, out {:trigger AdvancePending(id, a, out)} :: AdvancePending(id, a, out) !in Q
  }

  ghost predicate Stuck(w: World, id: Id) {
    id in w.orders && StuckRow(w.orders[id], w.chain.positions, id) && NoneUnderWay(w.pending, id)
  }

  // The one call that can move such an order: at s1 its owner cancelling it, at s4 a completion that
  // cannot read whom to pay.
  predicate WayOut(cfg: Config, o: OrderRow, a: Advance, seal: Seal) {
    if IsS1(o.state) then a == CancelCall() else a == PayCall() && PayeeRead(cfg, o, seal) == 0
  }

  lemma CompletesByPaying(o: OrderRow, a: Advance)
    requires Issued(o, a) && o.kind == OTCTake
    ensures TerminalOf(a.dst) == TermCompleted ==> a == PayCall()
    ensures a.ev == EvCancel ==> a == CancelCall()
    ensures a.ev == EvFunded ==> o.side == Sell
    ensures a.ev == EvBind ==> o.side == Buy
  {}

  // Nothing else moves it.
  lemma OnlyWayOut(cfg: Config, w: World, tx: Tx, seal: Seal, id: Id, a: Advance)
    requires Inv(cfg.dep, w.chain) && Stuck(w, id) && Serves(w.orders, id, a)
    requires BeginAdvance(cfg, w, tx, seal, id, a).Success?
    ensures WayOut(cfg, w.orders[id], a, seal)
  {
    var o := w.orders[id];
    CompletesByPaying(o, a);
    if a.ev == EvBind {
      BindingRefused(cfg, w, tx, seal, id, a);
    } else {
      SettleBegins(cfg, w, tx, seal, id, a);
      LegalFlow(o.state, a.ev, a.actor, a.dst);
      if !IsS1(o.state) && PayeeRead(cfg, o, seal) != 0 {
        ReleaseEffect(cfg, w.chain, tx, seal, id, o, a.score);
      }
    }
  }

  // The scheduler cannot move an order that is bound at s1 at all, nor one at s4 unless it cannot read
  // whom to pay.
  lemma SchedulerIsRefused(cfg: Config, w: World, tx: Tx, seal: Seal, id: Id, f: Ticks.Finding)
    requires WorldOk(cfg, w) && Stuck(w, id) && Ticks.PlanOf(w.orders[id], f).Go?
    requires IsS1(w.orders[id].state) || PayeeRead(cfg, w.orders[id], seal) != 0
    ensures BeginAdvance(cfg, w, tx, seal, id, Ticks.PlanOf(w.orders[id], f).a).Failure?
  {
    var o, a := w.orders[id], Ticks.PlanOf(w.orders[id], f).a;
    assert RowOk(o, w.offers);
    Ticks.EveryTickLegal(o, f);
    if BeginAdvance(cfg, w, tx, seal, id, a).Success? {
      OnlyWayOut(cfg, w, tx, seal, id, a);
    }
  }

  // ── which crashes lead there ──

  lemma BindCrashSticks(cfg: Config, w: World, tx: Tx, seal: Seal, id: Id, a: Advance)
    requires id in w.orders && w.orders[id].kind == OTCTake && NoneUnderWay(w.pending, id)
    requires Serves(w.orders, id, a) && BeginAdvance(cfg, w, tx, seal, id, a).Success? && a.ev == EvBind
    ensures Stuck(Crashed(cfg, w, tx, seal, id, a), id)
  {
    CrashLeavesTheChain(cfg, w, tx, seal, id, a);
    CompletesByPaying(w.orders[id], a);
    BindBegins(cfg, w, tx, seal, id, a);
    BindBinds(cfg, w.chain, tx, BindOf(cfg, id, w.orders[id], seal));
    LegalFlow(w.orders[id].state, a.ev, a.actor, a.dst);
  }

  lemma ReleaseCrashSticks(cfg: Config, w: World, tx: Tx, seal: Seal, id: Id, a: Advance)
    requires Inv(cfg.dep, w.chain) && id in w.orders && w.orders[id].kind == OTCTake && NoneUnderWay(w.pending, id)
    requires Serves(w.orders, id, a) && BeginAdvance(cfg, w, tx, seal, id, a).Success?
    requires PendingOf(cfg, w, seal, id, a).out == ReleaseAction
    ensures Stuck(Crashed(cfg, w, tx, seal, id, a), id)
  {
    CrashLeavesTheChain(cfg, w, tx, seal, id, a);
    ReleaseIsNamed(cfg, w, seal, id, a);
    SettleBegins(cfg, w, tx, seal, id, a);
    LegalFlow(w.orders[id].state, a.ev, a.actor, a.dst);
    NamedReleaseIsOne(cfg, w.chain, tx, seal, id, w.orders[id], TerminalOf(a.dst), a.score);
  }

  // A refund settles a position without making the order stuck where it was not.
  lemma RefundCrashDoesNot(cfg: Config, w: World, tx: Tx, seal: Seal, id: Id, a: Advance)
    requires Inv(cfg.dep, w.chain) && id in w.orders && w.orders[id].kind == OTCTake && NoneUnderWay(w.pending, id)
    requires Serves(w.orders, id, a) && BeginAdvance(cfg, w, tx, seal, id, a).Success?
    requires PendingOf(cfg, w, seal, id, a).out == RefundAction
    ensures Stuck(Crashed(cfg, w, tx, seal, id, a), id) <==> Stuck(w, id)
  {
    CrashLeavesTheChain(cfg, w, tx, seal, id, a);
    BindIsNamed(cfg, w, seal, id, a);
    SettleBegins(cfg, w, tx, seal, id, a);
    LegalFlow(w.orders[id].state, a.ev, a.actor, a.dst);
    NamedRefundIsOne(cfg, w.chain, id, w.orders[id], TerminalOf(a.dst), a.score, seal);
    RefundEffect(cfg, w.chain, tx, seal, id);
  }

  // A crash leaves an OTC order stuck exactly when the call had bound or released, unless it was stuck
  // before.
  lemma CrashSticksExactly(cfg: Config, w: World, tx: Tx, seal: Seal, id: Id, a: Advance)
    requires WorldOk(cfg, w) && NoneUnderWay(w.pending, id) && id in w.orders && w.orders[id].kind == OTCTake
    requires Serves(w.orders, id, a) && BeginAdvance(cfg, w, tx, seal, id, a).Success?
    ensures var out := PendingOf(cfg, w, seal, id, a).out;
      Stuck(Crashed(cfg, w, tx, seal, id, a), id) <==> out == BindAction || out == ReleaseAction || Stuck(w, id)
  {
    match PendingOf(cfg, w, seal, id, a).out
    case NoAction => IdleCrashRetries(cfg, w, tx, seal, id, a);
    case RefundAction => RefundCrashDoesNot(cfg, w, tx, seal, id, a);
    case ReleaseAction => ReleaseCrashSticks(cfg, w, tx, seal, id, a);
    case BindAction =>
      BindIsNamed(cfg, w, seal, id, a);
      BindCrashSticks(cfg, w, tx, seal, id, a);
  }

  // ── everything that makes an order stuck, or moves it on ──

  predicate MakesPosition(call: Call, id: Id) {
    match call
    case DepositCall(i, _, _, _) => i == id
    case BindListingLockCall(i, _, _, _) => i == id
    case _ => false
  }

  predicate Settles(call: Call, id: Id) {
    match call
    case ReleaseCall(att, _) => att.orderId == id
    case RefundCall(att, _) => att.orderId == id
    case ResolveDisputeCall(att, _) => att.orderId == id
    case _ => false
  }

  // An order is at rest when it is open and no call on it is under way.
  ghost predicate AtRest(w: World, Q: multiset<Pending>, id: Id) {
    id in w.orders && w.orders[id].kind == OTCTake && w.orders[id].terminal == TermNone && NoneUnderWay(Q, id)
  }

  // Somebody else makes a position under the id of a buy order at rest in s1, or settles that of one at rest
  // in s4.
  ghost predicate StuckByOthers(w: World, call: Call, id: Id) {
    && AtRest(w, w.pending, id)
    && var o := w.orders[id];
       || (o.side == Buy && IsS1(o.state) && MakesPosition(call, id))
       || (IsS4(o.state) && Settles(call, id))
  }

  // The last call under way crashes, or fails to commit, over an order that is bound at s1 or settled at s4.
  ghost predicate StuckByCrash(w: World, p: Pending, id: Id) {
    AtRest(w, w.pending - multiset{p}, id) && StuckRow(w.orders[id], w.chain.positions, id)
  }

  // The last call under way commits, accepting an order that has a position already, or verifying one whose
  // position is settled already.
  ghost predicate StuckByArrival(w: World, p: Pending, id: Id) {
    && AtRest(w, w.pending - multiset{p}, id)
    && p.AdvancePending? && p.id == id && id in w.chain.positions
    && ((w.orders[id].side == Buy && IsS1(p.a.dst)) || (IsS4(p.a.dst) && Settled(w.chain.positions[id])))
  }

  predicate Arrives(w: World, p: Pending, id: Id) {
    p.AdvancePending? && p.id == id && StoreAdvance(w.offers, w.orders, p.id, p.a, p.out).Success?
  }

  ghost predicate BecomesStuck(cfg: Config, w: World, h: Happening, id: Id) {
    match h
    case Others(tx, call) => Step(cfg.dep, w.chain, tx, call).Success? && StuckByOthers(w, call, id)
    case Crashes(p) => StuckByCrash(w, p, id)
    case Commits(p) => if Arrives(w, p, id) then StuckByArrival(w, p, id) else StuckByCrash(w, p, id)
    case _ => false
  }

  predicate MovesOn(cfg: Config, w: World, h: Happening, id: Id) {
    h.AdvanceBegins? && h.id == id && BeginAdvance(cfg, w, h.tx, h.seal, h.id, h.a).Success?
  }

  // What a transaction does to the position of one id: it makes it, or settles it, exactly when it says so.
  lemma ActTouches(cfg: Config, c: State, tx: Tx, call: Option<Call>, id: Id)
    requires Inv(cfg.dep, c) && Act(cfg, c, tx, call).Success?
    ensures var P, P' := c.positions, Act(cfg, c, tx, call).value.positions;
      && (id in P' <==> id in P || (call.Some? && MakesPosition(call.value, id)))
      && (id in P' && Settled(P'[id]) <==> id in P && (Settled(P[id]) || (call.Some? && Settles(call.value, id))))
  {
    if call.Some? {
      match call.value
      case ReleaseCall(att, sigs) => ReleaseExactly(cfg.dep, c, tx, att, sigs);
      case RefundCall(att, sigs) => RefundExactly(cfg.dep, c, tx, att, sigs);
      case ResolveDisputeCall(att, sigs) => ResolveDisputeExactly(cfg.dep, c, tx, att, sigs);
      case _ => PlainTouches(cfg.dep, c, tx, call.value, id);
    }
  }

  lemma PlainTouches(dep: Deployment, s: State, tx: Tx, call: Call, id: Id)
    requires Step(dep, s, tx, call).Success?
    requires !call.ReleaseCall? && !call.RefundCall? && !call.ResolveDisputeCall?
    ensures var P, P' := s.positions, Step(dep, s, tx, call).value.positions;
      && (id in P' <==> id in P || MakesPosition(call, id))
      && (id in P' && Settled(P'[id]) <==> id in P && Settled(P[id]))
  {}

  lemma UnderWayAdded(Q: multiset<Pending>, p: Pending, id: Id)
    ensures NoneUnderWay(Q + multiset{p}, id) <==> NoneUnderWay(Q, id) && !(p.AdvancePending? && p.id == id)
  {
    assert p in Q + multiset{p};
    forall a, out ensures AdvancePending(id, a, out) in Q ==> AdvancePending(id, a, out) in Q + multiset{p} {}
  }

  // The order and its position look the same.
  ghost predicate SameThere(w: World, w': World, id: Id) {
    && (id in w.orders <==> id in w'.orders)
    && (id in w.orders ==> w'.orders[id] == w.orders[id].(fundingVia := w'.orders[id].fundingVia))
    && (id in w.chain.positions <==> id in w'.chain.positions)
    && (id in w.chain.positions ==> (Settled(w'.chain.positions[id]) <==> Settled(w.chain.positions[id])))
  }

  // The platform acts on the chain for one order, and the position of another stays as it is.
  lemma AdvanceElsewhere(cfg: Config, w: World, tx: Tx, seal: Seal, other: Id, a: Advance, id: Id)
    requires Inv(cfg.dep, w.chain) && other != id && BeginAdvance(cfg, w, tx, seal, other, a).Success?
    ensures Stuck(BeginAdvance(cfg, w, tx, seal, other, a).value, id) <==> Stuck(w, id)
  {
    var o := w.orders[other];
    PendingIsOf(cfg, w, tx, seal, other, a);
    UnderWayAdded(w.pending, PendingOf(cfg, w, seal, other, a), id);
    if a.ev == EvBind {
      BindBegins(cfg, w, tx, seal, other, a);
      ActTouches(cfg, w.chain, tx, Some(BindOf(cfg, other, o, seal)), id);
    } else {
      SettleBegins(cfg, w, tx, seal, other, a);
      ActTouches(cfg, w.chain, tx, SettleCall(cfg, w.chain, other, o, TerminalOf(a.dst), a.score, seal), id);
    }
    assert SameThere(w, BeginAdvance(cfg, w, tx, seal, other, a).value, id);
  }

  lemma RulingElsewhere(cfg: Config, w: World, tx: Tx, seal: Seal, other: Id, release: bool, id: Id)
    requires WorldOk(cfg, w) && BeginRuling(cfg, w, tx, seal, other, release).Success?
    ensures Stuck(BeginRuling(cfg, w, tx, seal, other, release).value, id) <==> Stuck(w, id)
  {
    var call := SettleCall(cfg, w.chain, other, w.orders[other], RulingTerm(release), 0, seal);
    UnderWayAdded(w.pending, RulingPending(other, release, ActionName(call)), id);
    ActTouches(cfg, w.chain, tx, call, id);
    if other == id {
      assert RowOk(w.orders[id], w.offers);
    }
  }

  lemma OthersStick(cfg: Config, w: World, tx: Tx, call: Call, id: Id)
    requires Inv(cfg.dep, w.chain) && Step(cfg.dep, w.chain, tx, call).Success?
    ensures Stuck(w.(chain := Step(cfg.dep, w.chain, tx, call).value), id)
            <==> Stuck(w, id) || StuckByOthers(w, call, id)
  {
    ActTouches(cfg, w.chain, tx, Some(call), id);
    if Settles(call, id) {
      SettlingFindsOne(cfg.dep, w.chain, tx, call, id);
    }
  }

  lemma SettlingFindsOne(dep: Deployment, s: State, tx: Tx, call: Call, id: Id)
    requires Inv(dep, s) && Step(dep, s, tx, call).Success? && Settles(call, id)
    ensures id in s.positions
  {}

  // The row that a committed call leaves.
  lemma ArrivesStuck(w: World, p: Pending, id: Id)
    requires id in w.orders && Arrives(w, p, id)
    ensures Stuck(CommitCall(w, p), id) <==> StuckByArrival(w, p, id)
  {
    ApplyExactly(StandingOf(w.orders[id]), p.a.ev, p.a.actor, p.a.dst);
  }

  // What a commit leaves of an order that no arriving call is about: its row, or a row that is never stuck.
  ghost predicate LeavesRow(w: World, w': World, p: Pending, id: Id) {
    && w'.chain == w.chain && w'.pending == w.pending - multiset{p}
    && if id in w.orders && !InDispute(w.orders[id])
       then id in w'.orders && w'.orders[id] == w.orders[id].(fundingVia := w'.orders[id].fundingVia)
       else id in w'.orders ==> !StuckRow(w'.orders[id], w'.chain.positions, id)
  }

  lemma AdvanceCommitsElsewhere(w: World, p: Pending, id: Id)
    requires p.AdvancePending? && !Arrives(w, p, id)
    requires id in w.orders ==> TickReady(w.orders[id])
    ensures LeavesRow(w, CommitCall(w, p), p, id)
  {}

  lemma OtherCommitsElsewhere(cfg: Config, w: World, p: Pending, id: Id)
    requires !p.AdvancePending? && PendingOk(cfg, p, w.chain.positions, w.chain.listings, w.orders, w.offers)
    requires id in w.orders ==> TickReady(w.orders[id])
    ensures LeavesRow(w, CommitCall(w, p), p, id)
  {}

  // Any other call that commits, and any that fails to, leaves the order as it is, unless it makes it or
  // ends it.
  lemma CommitsElsewhere(cfg: Config, w: World, p: Pending, id: Id)
    requires WorldOk(cfg, w) && p in w.pending && !Arrives(w, p, id)
    ensures Stuck(CommitCall(w, p), id) <==> StuckByCrash(w, p, id)
  {
    assert PendingOk(cfg, p, w.chain.positions, w.chain.listings, w.orders, w.offers);
    if id in w.orders {
      assert RowOk(w.orders[id], w.offers);
    }
    if p.AdvancePending? {
      AdvanceCommitsElsewhere(w, p, id);
    } else {
      OtherCommitsElsewhere(cfg, w, p, id);
    }
  }

  lemma QuietlyStuck(cfg: Config, w: World, h: Happening, id: Id)
    requires h.OfferBegins? || h.TakeBegins? || h.FundingBegins? || h.ConditionalMade? || h.OfferDelisted?
    ensures Stuck(Next(cfg, w, h), id) <==> Stuck(w, id)
  {
    match h
    case OfferBegins(f, maker, side, asset, qty) =>
      UnderWayAdded(w.pending, OfferPending(f, Offer(maker, side, asset, qty, qty, Active)), id);
    case TakeBegins(i, f, taker, amount) =>
      if f in w.offers { UnderWayAdded(w.pending, TakePending(i, Taken(f, w.offers[f], taker, amount)), id); }
    case FundingBegins(i) => UnderWayAdded(w.pending, FundingPending(i), id);
    case _ =>
  }

  // An order is stuck after a happening exactly when it was and the happening does not begin a call on it, or
  // when somebody else gives it a position at s1 or settles it at s4, or when the last call under way on it
  // crashes, fails or arrives there.
  lemma StuckExactly(cfg: Config, w: World, h: Happening, id: Id)
    requires WorldOk(cfg, w) && Possible(cfg, w, h)
    ensures Stuck(Next(cfg, w, h), id) <==> (Stuck(w, id) && !MovesOn(cfg, w, h, id)) || BecomesStuck(cfg, w, h, id)
  {
    match h
    case Others(tx, call) =>
      if Step(cfg.dep, w.chain, tx, call).Success? { OthersStick(cfg, w, tx, call, id); }
    case AdvanceBegins(tx, seal, other, a) =>
      if BeginAdvance(cfg, w, tx, seal, other, a).Success? {
        PendingIsOf(cfg, w, tx, seal, other, a);
        UnderWayAdded(w.pending, PendingOf(cfg, w, seal, other, a), id);
        if other != id { AdvanceElsewhere(cfg, w, tx, seal, other, a, id); }
      }
    case RulingBegins(tx, seal, other, release) =>
      if BeginRuling(cfg, w, tx, seal, other, release).Success? {
        RulingElsewhere(cfg, w, tx, seal, other, release, id);
      }
    case Commits(p) =>
      if Stuck(w, id) { StuckHasNoneToCommit(w, p, id); }
      if Arrives(w, p, id) { ArrivesStuck(w, p, id); } else { CommitsElsewhere(cfg, w, p, id); }
    case Crashes(p) =>
      if Stuck(w, id) { StuckHasNoneToCommit(w, p, id); }
    case _ => QuietlyStuck(cfg, w, h, id);
  }

  lemma StuckHasNoneToCommit(w: World, p: Pending, id: Id)
    requires Stuck(w, id) && p in w.pending
    ensures !Arrives(w, p, id) && StuckByCrash(w, p, id)
  {}

  // A happening that does not take the one way out.
  predicate NotOut(cfg: Config, w: World, h: Happening, id: Id) {
    h.AdvanceBegins? && h.id == id && id in w.orders ==> !WayOut(cfg, w.orders[id], h.a, h.seal)
  }

  predicate NeverOut(cfg: Config, w: World, run: seq<Happening>, id: Id)
    decreases |run|
  {
    run == [] || (NotOut(cfg, w, run[0], id) && NeverOut(cfg, Next(cfg, w, run[0]), run[1..], id))
  }

  lemma HappeningLeavesStuck(cfg: Config, w: World, h: Happening, id: Id)
    requires WorldOk(cfg, w) && Possible(cfg, w, h) && Stuck(w, id) && NotOut(cfg, w, h, id)
    ensures Stuck(Next(cfg, w, h), id)
  {
    if MovesOn(cfg, w, h, id) {
      OnlyWayOut(cfg, w, h.tx, h.seal, id, h.a);
    }
    StuckExactly(cfg, w, h, id);
  }

  // A stuck order stays where it is for ever, whatever happens, unless its owner cancels it at s1 or a
  // completion at s4 cannot read whom to pay.
  lemma {:induction false} StuckForever(cfg: Config, w: World, run: seq<Happening>, id: Id)
    requires WorldOk(cfg, w) && AllPossible(cfg, w, run) && Stuck(w, id) && NeverOut(cfg, w, run, id)
    ensures Stuck(Later(cfg, w, run), id)
    decreases |run|
  {
    if run != [] {
      HappeningKeeps(cfg, w, run[0]);
      HappeningLeavesStuck(cfg, w, run[0], id);
      StuckForever(cfg, Next(cfg, w, run[0]), run[1..], id);
    }
  }

  // The way out of s4 is always open, and completes the order without a release on record.
  lemma WayOutOfS4IsOpen(cfg: Config, w: World, tx: Tx, seal: Seal, id: Id)
    requires Stuck(w, id) && IsS4(w.orders[id].state) && PayeeRead(cfg, w.orders[id], seal) == 0
    ensures BeginAdvance(cfg, w, tx, seal, id, PayCall())
            == Success(w.(pending := w.pending + multiset{AdvancePending(id, PayCall(), NoAction)}))
    ensures var end := CommitCall(w, AdvancePending(id, PayCall(), NoAction));
      && id in end.orders && end.orders[id].terminal == TermCompleted
      && end.orders[id].evidence == w.orders[id].evidence && end.chain == w.chain
  {
    Ticks.RowLeads(27, OTCTake, S4, EvTick, System, S5);
    SettleBeginsExactly(cfg, w, tx, seal, id, PayCall());
    PayCommits(w, id);
  }

  lemma PayCommits(w: World, id: Id)
    requires id in w.orders && w.orders[id].kind == OTCTake && w.orders[id].terminal == TermNone
    requires IsS4(w.orders[id].state) && Legal(OTCTake, S4, EvTick, System, S5)
    ensures var end := CommitCall(w, AdvancePending(id, PayCall(), NoAction));
      && id in end.orders && end.orders[id].terminal == TermCompleted
      && end.orders[id].evidence == w.orders[id].evidence && end.chain == w.chain
  {
    ApplyExactly(StandingOf(w.orders[id]), EvTick, System, S5);
  }

  // The way out of s1 is open exactly when there is nothing to refund, as far as the call can see, or the
  // refund is signed.
  lemma WayOutOfS1(cfg: Config, w: World, tx: Tx, seal: Seal, id: Id)
    requires Inv(cfg.dep, w.chain) && id in w.orders && StuckRow(w.orders[id], w.chain.positions, id)
    requires IsS1(w.orders[id].state)
    ensures BeginAdvance(cfg, w, tx, seal, id, CancelCall()).Success? <==>
      || LeftAlone(w.chain.positions[id], seal)
      || Attested(cfg.dep, w.chain, tx, Attestation(id, ToRefund, 0, seal.nonce, seal.deadline), [seal.sig])
  {
    CancelIsLegal(w.orders[id].state);
    CancelSettles(cfg, w.chain, id, w.orders[id], seal);
    SettleBeginsExactly(cfg, w, tx, seal, id, CancelCall());
    RefundGoesThrough(cfg, w.chain, tx, seal, id);
  }

  lemma CancelSettles(cfg: Config, c: State, id: Id, o: OrderRow, seal: Seal)
    ensures SettleCall(cfg, c, id, o, TerminalOf(CancelCall().dst), CancelCall().score, seal)
            == RefundIfEscrowed(c, id, seal)
  {}

  lemma CancelIsLegal(s: OrderState)
    requires IsS1(s)
    ensures Legal(OTCTake, s, EvCancel, Owner, Cancelled)
  {
    Ticks.RowLeads(21, OTCTake, S1, EvCancel, Owner, Cancelled);
  }

  lemma RefundGoesThrough(cfg: Config, c: State, tx: Tx, seal: Seal, id: Id)
    requires Inv(cfg.dep, c) && id in c.positions
    ensures Act(cfg, c, tx, RefundIfEscrowed(c, id, seal)).Success? <==>
      || LeftAlone(c.positions[id], seal)
      || Attested(cfg.dep, c, tx, Attestation(id, ToRefund, 0, seal.nonce, seal.deadline), [seal.sig])
  {
    RefundExactly(cfg.dep, c, tx, Attestation(id, ToRefund, 0, seal.nonce, seal.deadline), [seal.sig]);
  }

  // ── a conditional order whose releasing vote crashed ──

  // A call with nothing to do on the chain is taken up, and commits.
  lemma PlainBegin(cfg: Config, w: World, tx: Tx, seal: Seal, id: Id, a: Advance)
    requires id in w.orders && w.orders[id].terminal == TermNone && a.ev != EvBind && a.extra != ReturnReservation
    requires Legal(w.orders[id].kind, w.orders[id].state, a.ev, a.actor, a.dst)
    requires SettleCall(cfg, w.chain, id, w.orders[id], TerminalOf(a.dst), a.score, seal) == None
    ensures BeginAdvance(cfg, w, tx, seal, id, a)
            == Success(w.(pending := w.pending + multiset{AdvancePending(id, a, NoAction)}))
  {
    SettleBeginsExactly(cfg, w, tx, seal, id, a);
    SettleBegins(cfg, w, tx, seal, id, a);
  }

  lemma PlainCommit(w: World, id: Id, a: Advance)
    requires id in w.orders && w.orders[id].terminal == TermNone && a.extra != ReturnReservation
    requires Legal(w.orders[id].kind, w.orders[id].state, a.ev, a.actor, a.dst)
    ensures var p := AdvancePending(id, a, NoAction);
      CommitCall(w.(pending := w.pending + multiset{p}), p)
      == w.(orders := w.orders[id := Ticks.Moved(w.orders[id], a)])
  {
    ApplyExactly(StandingOf(w.orders[id]), a.ev, a.actor, a.dst);
    TakenBack(w.pending, AdvancePending(id, a, NoAction));
  }

  predicate IsReleasing(s: OrderState) {
    s == Releasing
  }

  predicate VotesWhileReleasing(e: Edge) {
    e.event == EvReleaseVote ==> IsReleasing(e.src)
  }

  lemma VoteEdges()
    ensures forall i :: 0 <= i < |Table()| ==> VotesWhileReleasing(Table()[i])
  {
    assert forall i :: 0 <= i < |OTCEdges()| ==> VotesWhileReleasing(OTCEdges()[i]);
    assert forall i :: 0 <= i < |ConditionalEdges()| ==> VotesWhileReleasing(ConditionalEdges()[i]);
  }

  lemma VoteEdge(edges: seq<Edge>, kind: Kind, src: OrderState, actor: Actor, dst: OrderState)
    requires forall i :: 0 <= i < |edges| ==> VotesWhileReleasing(edges[i])
    requires LegalIn(edges, |edges|, kind, src, EvReleaseVote, actor, dst)
    ensures IsReleasing(src)
  {
    var i :| 0 <= i < |edges| && Leads(edges[i], kind, src, EvReleaseVote, actor, dst);
    assert VotesWhileReleasing(edges[i]);
  }

  // What the next vote and the tick after it make of the order when the vote is to hold.
  function HeldThenLapsed(w: World, id: Id): (World, World)
    requires id in w.orders
  {
    var held := w.(orders := w.orders[id := Ticks.Moved(w.orders[id], VoteCall(AwaitingMe, 0))]);
    (held, held.(orders := held.orders[id := Ticks.Moved(held.orders[id], TickCall(Expired, Nothing))]))
  }

  // One uninterrupted call, with nothing to do on the chain, leads from one world to the other, whatever
  // its seal.
  ghost predicate Uninterrupts(cfg: Config, w: World, w': World, id: Id, a: Advance) {
    var p := AdvancePending(id, a, NoAction);
    && (forall tx, seal {:trigger BeginAdvance(cfg, w, tx, seal, id, a)} ::
          BeginAdvance(cfg, w, tx, seal, id, a) == Success(w.(pending := w.pending + multiset{p})))
    && CommitCall(w.(pending := w.pending + multiset{p}), p) == w'
  }

  lemma PlainMoves(cfg: Config, w: World, id: Id, a: Advance)
    requires id in w.orders && w.orders[id].terminal == TermNone && a.ev != EvBind && a.extra != ReturnReservation
    requires Legal(w.orders[id].kind, w.orders[id].state, a.ev, a.actor, a.dst)
    requires forall seal: Seal :: SettleCall(cfg, w.chain, id, w.orders[id], TerminalOf(a.dst), a.score, seal) == None
    ensures Uninterrupts(cfg, w, w.(orders := w.orders[id := Ticks.Moved(w.orders[id], a)]), id, a)
  {
    forall tx, seal ensures BeginAdvance(cfg, w, tx, seal, id, a)
                            == Success(w.(pending := w.pending + multiset{AdvancePending(id, a, NoAction)})) {
      PlainBegin(cfg, w, tx, seal, id, a);
    }
    PlainCommit(w, id, a);
  }

  // From here the next vote may hold the order, and unless its branch is proof_window, as far as the
  // scheduler can read that, it then lapses: it is on record as expired although the coins are out.
  ghost predicate PaidButLapses(cfg: Config, w: World, id: Id) {
    && id in w.orders
    && var (held, lapsed) := HeldThenLapsed(w, id);
       && Uninterrupts(cfg, w, held, id, VoteCall(AwaitingMe, 0))
       && LapsesUnless(held.orders[id], w.orders[id].main == ProofWindow)
       && Uninterrupts(cfg, held, lapsed, id, TickCall(Expired, Nothing))
       && lapsed.orders[id].terminal == TermExpired && lapsed.orders[id].evidence == w.orders[id].evidence
       && IsReleased(lapsed.chain.positions, id)
  }

  ghost predicate LapsesUnless(o: OrderRow, window: bool) {
    forall f {:trigger Ticks.PlanOf(o, f)} ::
      Ticks.PlanOf(o, f) == Ticks.Go(TickCall(Expired, Nothing)) <==> !(f.termsRead && window)
  }

  lemma HeldLapses(o: OrderRow)
    requires o.kind == ConditionalTransfer
    ensures LapsesUnless(Ticks.Moved(o, VoteCall(AwaitingMe, 0)), o.main == ProofWindow)
  {}

  // A paid order is settled without a call to the contract unless it is completed.
  lemma PaidOrderMoves(cfg: Config, w: World, id: Id, a: Advance)
    requires id in w.orders && w.orders[id].terminal == TermNone && a.ev != EvBind && a.extra != ReturnReservation
    requires Legal(w.orders[id].kind, w.orders[id].state, a.ev, a.actor, a.dst)
    requires IsReleased(w.chain.positions, id) && TerminalOf(a.dst) != TermCompleted
    ensures Uninterrupts(cfg, w, w.(orders := w.orders[id := Ticks.Moved(w.orders[id], a)]), id, a)
  {
    PlainMoves(cfg, w, id, a);
  }

  lemma HoldIsLegal(s: OrderState)
    requires IsReleasing(s)
    ensures Legal(ConditionalTransfer, s, EvReleaseVote, AgentOf(), AwaitingMe)
    ensures Legal(ConditionalTransfer, AwaitingMe, EvTick, System, Expired)
  {
    Ticks.VotesLegal();
    Ticks.LateTicksLegal();
  }

  lemma HeldThenLapsedRows(w: World, id: Id)
    requires id in w.orders && w.orders[id].kind == ConditionalTransfer && w.orders[id].terminal == TermNone
    ensures var (held, lapsed) := HeldThenLapsed(w, id);
      && held.chain == w.chain && held.orders[id].kind == ConditionalTransfer && held.orders[id].terminal == TermNone
      && Aims(To(AwaitingMe), held.orders[id].state)
      && lapsed.chain == w.chain && lapsed.orders[id].terminal == TermExpired
      && lapsed.orders[id].evidence == w.orders[id].evidence
  {}

  lemma PaidVoteLapses(cfg: Config, w: World, id: Id)
    requires id in w.orders && w.orders[id].kind == ConditionalTransfer && w.orders[id].terminal == TermNone
    requires IsReleasing(w.orders[id].state) && IsReleased(w.chain.positions, id)
    ensures PaidButLapses(cfg, w, id)
  {
    HeldThenLapsedRows(w, id);
    HeldLapses(w.orders[id]);
    PaidVoteHolds(cfg, w, id);
    PaidHeldLapses(cfg, HeldThenLapsed(w, id).0, id);
  }

  lemma PaidVoteHolds(cfg: Config, w: World, id: Id)
    requires id in w.orders && w.orders[id].kind == ConditionalTransfer && w.orders[id].terminal == TermNone
    requires IsReleasing(w.orders[id].state) && IsReleased(w.chain.positions, id)
    ensures Uninterrupts(cfg, w, HeldThenLapsed(w, id).0, id, VoteCall(AwaitingMe, 0))
  {
    HoldIsLegal(w.orders[id].state);
    PaidOrderMoves(cfg, w, id, VoteCall(AwaitingMe, 0));
  }

  lemma PaidHeldLapses(cfg: Config, held: World, id: Id)
    requires id in held.orders && held.orders[id].kind == ConditionalTransfer && held.orders[id].terminal == TermNone
    requires Aims(To(AwaitingMe), held.orders[id].state) && IsReleased(held.chain.positions, id)
    ensures var a := TickCall(Expired, Nothing);
      Uninterrupts(cfg, held, held.(orders := held.orders[id := Ticks.Moved(held.orders[id], a)]), id, a)
  {
    HoldIsLegal(Releasing);
    PaidOrderMoves(cfg, held, id, TickCall(Expired, Nothing));
  }

  lemma VoteReleases(cfg: Config, w: World, tx: Tx, seal: Seal, id: Id, a: Advance)
    requires WorldOk(cfg, w) && a.ev == EvReleaseVote && TerminalOf(a.dst) == TermCompleted
    requires BeginAdvance(cfg, w, tx, seal, id, a).Success? && PayeeRead(cfg, w.orders[id], seal) != 0
    ensures IsReleasing(w.orders[id].state) && w.orders[id].terminal == TermNone
    ensures IsReleased(BeginAdvance(cfg, w, tx, seal, id, a).value.chain.positions, id)
  {
    SettleBegins(cfg, w, tx, seal, id, a);
    VoteEdges();
    VoteEdge(Table(), w.orders[id].kind, w.orders[id].state, a.actor, a.dst);
    SettlePaysExactly(cfg, w.chain, tx, seal, id, w.orders[id], a.score);
  }

  // A releasing vote that crashed after its release leaves the order paid, at releasing, to vote again.
  lemma CrashedVoteCanLapse(cfg: Config, w: World, tx: Tx, seal: Seal, id: Id, a: Advance)
    requires WorldOk(cfg, w) && Serves(w.orders, id, a) && a.ev == EvReleaseVote && TerminalOf(a.dst) == TermCompleted
    requires BeginAdvance(cfg, w, tx, seal, id, a).Success? && PayeeRead(cfg, w.orders[id], seal) != 0
    ensures Crashed(cfg, w, tx, seal, id, a).orders == w.orders
    ensures PaidButLapses(cfg, Crashed(cfg, w, tx, seal, id, a), id)
  {
    CrashLeavesTheChain(cfg, w, tx, seal, id, a);
    VoteReleases(cfg, w, tx, seal, id, a);
    VotesAreConditional(w.orders[id], a);
    PaidVoteLapses(cfg, Crashed(cfg, w, tx, seal, id, a), id);
  }

  lemma VotesAreConditional(o: OrderRow, a: Advance)
    requires Issued(o, a) && a.ev == EvReleaseVote
    ensures o.kind == ConditionalTransfer
  {}
}
