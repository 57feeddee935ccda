// Where the clock takes an order, said without the scheduler's plan.
module TickRoutes {
  import opened Results
  import opened OrderMachine
  import opened Orders
  import opened Ticks
  import opened OrderRules

  // ── runs of one order under the clock and its two parties ──

  // One thing that happens to an order. The scheduler acts on what it has read of the row, which need not be the
  // row it finds when it commits.
  datatype Event = ByTick(seen: OrderRow, f: Finding) | ByUser(a: Advance)

  // The parts of a row that never change.
  predicate SameOrder(o: OrderRow, seen: OrderRow) {
    && seen.kind == o.kind && seen.main == o.main && seen.side == o.side && seen.counterparty == o.counterparty
  }

  // What the two parties ask for themselves.
  predicate UserCall(o: OrderRow, a: Advance) {
    Issued(o, a) && (a.actor == Owner || a.actor == Counterparty)
  }

  // The call an event makes, if it makes one.
  function CallOf(o: OrderRow, e: Event): Option<Advance> {
    match e
    case ByTick(seen, f) =>
      if SameOrder(o, seen) && seen.terminal == TermNone && PlanOf(seen, f).Go? then Some(PlanOf(seen, f).a) else None
    case ByUser(a) => if UserCall(o, a) then Some(a) else None
  }

  function After(o: OrderRow, e: Event): OrderRow {
    match CallOf(o, e)
    case None => o
    case Some(a) => match Advanced(o, a) case Success(o') => o' case Failure(_) => o
  }

  function Ran(o: OrderRow, run: seq<Event>): OrderRow {
    if run == [] then o else After(Ran(o, run[..|run| - 1]), run[|run| - 1])
  }

  predicate TermsRead(run: seq<Event>) {
    forall i :: 0 <= i < |run| && run[i].ByTick? ==> run[i].f.termsRead
  }

  // ── how a release begins ──

  predicate Starts(o: OrderRow, o': OrderRow) {
    !IsReleasing(o.state) && IsReleasing(o'.state)
  }

  // The states from which the clock may begin a release.
  predicate Waiting(s: OrderState) {
    s == Locked || s == AwaitingCounterparty || s == AwaitingMe
  }

  // What the terms say the clock waits for before the release: nothing, the date, or the window for objections.
  // An order that waits for a confirmation is not released by the clock.
  predicate DueFrom(main: Branch, s: OrderState) {
    match main
    case Immediate => s == Locked
    case OnDate => s == AwaitingCounterparty
    case ProofWindow => s == AwaitingMe
    case OnConfirm => false
  }

  lemma PlanReleases(seen: OrderRow, f: Finding)
    requires seen.kind == ConditionalTransfer && f.termsRead
    ensures PlanOf(seen, f).Go? && IsReleasing(PlanOf(seen, f).a.dst) <==> DueFrom(seen.main, seen.state)
    ensures PlanOf(seen, f).Go? && IsReleasing(PlanOf(seen, f).a.dst)
            ==> PlanOf(seen, f).a == TickCall(Releasing, Nothing)
  {}

  lemma ReleaseTick(o: OrderRow)
    requires o.kind == ConditionalTransfer
    ensures Advanced(o, TickCall(Releasing, Nothing)).Success? <==> o.terminal == TermNone && Waiting(o.state)
  {
    ApplyExactly(StandingOf(o), EvTick, System, Releasing);
    LegalExactly(o.kind, o.state, EvTick, System, Releasing);
  }

  lemma CallLands(o: OrderRow, a: Advance)
    requires Advanced(o, a).Success?
    ensures Advanced(o, a).value.state == a.dst && SameOrder(o, Advanced(o, a).value)
    ensures o.terminal == TermNone && Advanced(o, a).value.terminal == TerminalOf(a.dst)
  {
    ApplyExactly(StandingOf(o), a.ev, a.actor, a.dst);
  }

  // With the terms read, a tick begins a release exactly when the row it has read was due, and the row it finds
  // still waits for something.
  lemma TickStartsExactly(o: OrderRow, seen: OrderRow, f: Finding)
    requires o.kind == ConditionalTransfer && SameOrder(o, seen) && f.termsRead
    ensures Starts(o, After(o, ByTick(seen, f))) <==>
            && seen.terminal == TermNone && DueFrom(o.main, seen.state)
            && o.terminal == TermNone && Waiting(o.state)
  {
    PlanReleases(seen, f);
    ReleaseTick(o);
    var c := CallOf(o, ByTick(seen, f));
    if c.Some? && Advanced(o, c.value).Success? {
      CallLands(o, c.value);
    }
  }

  // So a scheduler that has read the row as it is begins an immediate release out of locked, an on-date release out
  // of awaiting_counterparty, a proof_window release out of awaiting_me, and no other.
  lemma FreshTickStartsExactly(o: OrderRow, f: Finding)
    requires o.kind == ConditionalTransfer && o.terminal == TermNone && f.termsRead
    ensures Starts(o, After(o, ByTick(o, f))) <==> DueFrom(o.main, o.state)
  {
    TickStartsExactly(o, o, f);
  }

  // And a party begins one exactly by confirming, as the payer, while it may object.
  lemma UserStartsExactly(o: OrderRow, a: Advance)
    requires o.kind == ConditionalTransfer && UserCall(o, a)
    ensures Starts(o, After(o, ByUser(a))) <==> a == ConfirmCall() && o.terminal == TermNone && o.state == AwaitingMe
  {
    CallsAccepted(o, a);
    if Advanced(o, a).Success? {
      CallLands(o, a);
    }
    ConfirmIsForRelease(a);
  }

  lemma ConfirmIsForRelease(a: Advance)
    requires IssuedConditional(a) && (a.actor == Owner || a.actor == Counterparty)
    ensures IsReleasing(a.dst) <==> a == ConfirmCall()
    ensures a.ev == EvConfirm <==> a == ConfirmCall()
  {}

  // ── what else a tick is ──

  // The scheduler leaves an open order alone exactly while the deposit that was chosen has not settled, or while
  // what it needs to pay or to check for a buyer cannot be read.
  lemma WaitsExactly(o: OrderRow, f: Finding)
    requires TickReady(o) && o.terminal == TermNone
    ensures CallOf(o, ByTick(o, f)) == None <==>
            if f.termsRead && o.kind == OTCTake && o.side == Buy
            then (o.state == S1 && !f.payable) || (o.state == S3V && !f.receiptRead)
            else o.fundingVia && !f.settled && (o.state == Fund || o.state == S1)
  {
    EveryTickLegal(o, f);
  }

  // What it asks for rests on what it has found: a deposit that has settled, a payee, a receipt to check, the vote.
  // It stands in for the counterparty of a taker only, and it gives back stock exactly when it ends a trade.
  predicate Grounded(o: OrderRow, f: Finding, a: Advance) {
    && (a.ev == EvFunded ==> f.settled && o.fundingVia)
    && (a.ev == EvBind ==> f.payable && f.termsRead && o.side == Buy)
    && (a.ev == EvReceipt ==> a == ReceiptCall(Counterparty, o.counterparty) && f.termsRead && o.side == Sell)
    && (a.ev == EvVerify ==> a.actor == Counterparty && f.receiptRead && f.termsRead && o.side == Buy)
    && (a.ev == EvReleaseVote ==> IsReleased(a.dst) == !f.hold && a.score == if f.hold then 0 else f.score)
    && (a.ev == EvTick && o.kind == OTCTake ==>
          if IsS4(o.state) then a.score == 100 && a.extra == Nothing else a.extra == ReturnReservation)
  }

  lemma ConditionalTickGrounded(o: OrderRow, f: Finding)
    requires o.kind == ConditionalTransfer && PlanOf(o, f).Go?
    ensures Grounded(o, f, PlanOf(o, f).a)
  {}

  lemma OTCTickGrounded(o: OrderRow, f: Finding)
    requires o.kind == OTCTake && PlanOf(o, f).Go?
    ensures Grounded(o, f, PlanOf(o, f).a)
  {}

  lemma TicksAreGrounded(o: OrderRow, f: Finding)
    requires CallOf(o, ByTick(o, f)).Some?
    ensures Grounded(o, f, CallOf(o, ByTick(o, f)).value)
  {
    if o.kind == ConditionalTransfer { ConditionalTickGrounded(o, f); } else { OTCTickGrounded(o, f); }
  }

  // A scheduler that cannot read the terms begins no release, and moves no buyer's trade but to its end.
  predicate Blind(o: OrderRow, a: Advance) {
    if o.kind == ConditionalTransfer then !IsReleasing(a.dst)
    else o.side == Buy && !IsS4(o.state) ==> TerminalOf(a.dst) == TermExpired || TerminalOf(a.dst) == TermCancelled
  }

  lemma BlindTicksAreBlind(o: OrderRow, f: Finding)
    requires TickReady(o) && !f.termsRead && CallOf(o, ByTick(o, f)).Some?
    ensures Blind(o, CallOf(o, ByTick(o, f)).value)
  {}

  // When the scheduler looks at an order again. It hurries while something on the chain is under way, gives people
  // the window their step has, and falls back on a long stop otherwise.
  lemma DeadlinesAre(o: OrderRow, termsRead: bool)
    requires TickReady(o) && o.terminal == TermNone
    ensures match DeadlineFor(o, termsRead)
      case None => false
      case Some(OneSecond) =>
        || o.state == Locked || o.state == Releasing
        || (o.fundingVia && (o.state == Fund || (o.state == S1 && !(termsRead && o.side == Buy))))
      case Some(Fallback) =>
        || (o.state == Fund && !o.fundingVia)
        || (o.state == AwaitingMe && !(termsRead && o.main == ProofWindow))
      case Some(DisputeWindow) => o.state == AwaitingMe && termsRead && o.main == ProofWindow
      case Some(CondSettle) => o.state == AwaitingCounterparty
      case Some(MatchWindow) => o.state == Match
      case Some(BindDelay) => o.state == S1 && termsRead && o.side == Buy
      case Some(S1Window) => o.state == S1 && !o.fundingVia && !termsRead
      case Some(TheirPay) => o.state == S3 && termsRead && o.side == Sell
      case Some(S3Window) => o.state == S3 && !(termsRead && o.side == Sell)
      case Some(VerifyWindow) => o.state == S3V
      case Some(S4Delay) => o.state == S4
  {}

  // ── runs ──

  predicate IsReleased(s: OrderState) {
    s == Released
  }

  predicate Paying(s: OrderState) {
    IsReleasing(s) || IsReleased(s)
  }

  lemma OnlyVotesPay(kind: Kind, src: OrderState, ev: OrderEvent, actor: Actor, dst: OrderState)
    requires Legal(kind, src, ev, actor, dst) && IsReleased(dst)
    ensures IsReleasing(src)
  {
    LegalExactly(kind, src, ev, actor, dst);
  }

  lemma NotStraightToPaid(o: OrderRow, e: Event)
    requires !Paying(o.state)
    ensures !IsReleased(After(o, e).state)
  {
    var c := CallOf(o, e);
    if c.Some? && Advanced(o, c.value).Success? {
      CallLands(o, c.value);
      ApplyExactly(StandingOf(o), c.value.ev, c.value.actor, c.value.dst);
      if IsReleased(c.value.dst) {
        OnlyVotesPay(o.kind, o.state, c.value.ev, c.value.actor, c.value.dst);
      }
    }
  }

  lemma OrderStaysTheSame(o: OrderRow, e: Event)
    ensures SameOrder(o, After(o, e))
  {
    var c := CallOf(o, e);
    if c.Some? && Advanced(o, c.value).Success? {
      CallLands(o, c.value);
    }
  }

  // The payer confirmed, and that began the release.
  ghost predicate Confirmed(o: OrderRow, run: seq<Event>) {
    exists i :: 0 <= i < |run| && ConfirmedAt(o, run, i)
  }

  predicate ConfirmedAt(o: OrderRow, run: seq<Event>, i: nat)
    requires i < |run|
  {
    run[i] == ByUser(ConfirmCall()) && Starts(Ran(o, run[..i]), After(Ran(o, run[..i]), run[i]))
  }

  lemma ConfirmedBefore(o: OrderRow, run: seq<Event>)
    requires run != [] && (Confirmed(o, run[..|run| - 1]) || ConfirmedAt(o, run, |run| - 1))
    ensures Confirmed(o, run)
  {
    var init := run[..|run| - 1];
    if Confirmed(o, init) {
      var i :| 0 <= i < |init| && ConfirmedAt(o, init, i);
      assert init[..i] == run[..i];
      assert ConfirmedAt(o, run, i);
    }
  }

  // The last event of a run is the one that made an order with an on_confirm condition payable.
  lemma ConfirmingStep(o: OrderRow, e: Event)
    requires o.kind == ConditionalTransfer && o.main == OnConfirm && !Paying(o.state)
    requires e.ByTick? ==> e.f.termsRead
    ensures Paying(After(o, e).state) ==> e == ByUser(ConfirmCall()) && Starts(o, After(o, e))
  {
    NotStraightToPaid(o, e);
    match e
    case ByTick(seen, f) => if SameOrder(o, seen) { TickStartsExactly(o, seen, f); }
    case ByUser(a) => if UserCall(o, a) { UserStartsExactly(o, a); }
  }

  // Whatever the clock does, however stale what it has read, and whatever the parties ask for: with its terms read,
  // an order that waits for a confirmation is being released or has been only after its payer confirmed.
  lemma {:induction false} OnConfirmNeedsConfirmation(o: OrderRow, run: seq<Event>)
    requires o.kind == ConditionalTransfer && o.main == OnConfirm && !Paying(o.state) && TermsRead(run)
    ensures SameOrder(o, Ran(o, run))
    ensures Paying(Ran(o, run).state) ==> Confirmed(o, run)
  {
    if run != [] {
      var init, e := run[..|run| - 1], run[|run| - 1];
      OnConfirmNeedsConfirmation(o, init);
      OrderStaysTheSame(Ran(o, init), e);
      if Paying(Ran(o, run).state) {
        if !Paying(Ran(o, init).state) { ConfirmingStep(Ran(o, init), e); }
        ConfirmedBefore(o, run);
      }
    }
  }

  // ── where the clock alone takes an order ──

  // Left to the clock, with everything it asks for there to be read, an order that is not held up ends so. A buyer
  // who has not shown to have paid has let the trade lapse, as has a seller who did not check.
  function Fate(o: OrderRow, held: bool): Terminal {
    if o.terminal != TermNone then o.terminal
    else if o.kind == ConditionalTransfer then (if PaidByClock(o, held) then TermCompleted else TermExpired)
    else match o.state
      case Match => TermCancelled
      case S4 => TermCompleted
      case S3V => if o.side == Buy then TermCompleted else TermExpired
      case _ => TermExpired
  }

  // An unfunded order is never paid by the clock. One that may be objected to is put to the vote again and again
  // until it is paid; any other is put to the vote at most once, and then only from before the state in which it
  // waits for its payer.
  predicate PaidByClock(o: OrderRow, held: bool) {
    match o.state
    case Fund => o.fundingVia && o.main != OnConfirm && (o.main == ProofWindow || !held)
    case Locked => o.main != OnConfirm && (o.main == ProofWindow || !held)
    case AwaitingCounterparty => o.main == ProofWindow || (o.main == OnDate && !held)
    case AwaitingMe => o.main == ProofWindow
    case Releasing => o.main == ProofWindow || !held
    case _ => false
  }

  predicate SmoothTick(f: Finding) {
    f.settled && f.payable && f.receiptRead && f.termsRead
  }

  // A tick leaves an order to its fate, which a hold may have sealed.
  lemma ConditionalFateKept(o: OrderRow, f: Finding, later: bool)
    requires TickReady(o) && o.terminal == TermNone && o.kind == ConditionalTransfer && SmoothTick(f)
    requires Ticked(o, f).terminal != TermNone ==> !later
    ensures Fate(Ticked(o, f), later) == Fate(o, later || Holds(o, f))
  {}

  lemma OTCFateKept(o: OrderRow, f: Finding, later: bool)
    requires TickReady(o) && o.terminal == TermNone && o.kind == OTCTake && SmoothTick(f)
    ensures Fate(Ticked(o, f), later) == Fate(o, later || Holds(o, f))
  {}

  lemma {:induction false} NoHoldsAtTheEnd(o: OrderRow, fs: seq<Finding>)
    requires o.terminal != TermNone
    ensures HoldCount(o, fs) == 0
    decreases |fs|
  {
    if fs != [] {
      NoHoldsAtTheEnd(Ticked(o, fs[0]), fs[1..]);
    }
  }

  lemma FateKept(o: OrderRow, fs: seq<Finding>)
    requires TickReady(o) && fs != [] && SmoothTick(fs[0])
    ensures TickReady(Ticked(o, fs[0]))
    ensures Fate(Ticked(o, fs[0]), HoldCount(Ticked(o, fs[0]), fs[1..]) > 0) == Fate(o, HoldCount(o, fs) > 0)
  {
    TickProgress(o, fs[0]);
    var o' := Ticked(o, fs[0]);
    if o'.terminal != TermNone {
      NoHoldsAtTheEnd(o', fs[1..]);
    }
    if o.terminal == TermNone {
      var later := HoldCount(o', fs[1..]) > 0;
      if o.kind == ConditionalTransfer { ConditionalFateKept(o, fs[0], later); } else { OTCFateKept(o, fs[0], later); }
    }
  }

  lemma {:induction false} FateAlongTicks(o: OrderRow, fs: seq<Finding>)
    requires TickReady(o) && AllGoThrough(fs)
    ensures AfterTicks(o, fs).terminal != TermNone ==> AfterTicks(o, fs).terminal == Fate(o, HoldCount(o, fs) > 0)
    decreases |fs|
  {
    if fs != [] {
      FateKept(o, fs);
      FateAlongTicks(Ticked(o, fs[0]), fs[1..]);
    }
  }

  // Where every order ends that nobody but the scheduler sees to.
  lemma TicksEndAs(o: OrderRow, fs: seq<Finding>)
    requires TickReady(o) && AllGoThrough(fs)
    requires |fs| >= 5 + 2 * HoldCount(o, fs)
    ensures AfterTicks(o, fs).terminal == Fate(o, HoldCount(o, fs) > 0)
  {
    TicksTerminate(o, fs);
    FateAlongTicks(o, fs);
  }

  // So an order that waits for a confirmation expires for want of it.
  lemma UnconfirmedExpires(o: OrderRow, fs: seq<Finding>)
    requires TickReady(o) && AllGoThrough(fs) && |fs| >= 5 + 2 * HoldCount(o, fs)
    requires o.kind == ConditionalTransfer && o.main == OnConfirm && o.terminal == TermNone && !IsReleasing(o.state)
    ensures AfterTicks(o, fs).terminal == TermExpired
  {
    TicksEndAs(o, fs);
  }
}
