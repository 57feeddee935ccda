// The scheduler: what it does to an order whose deadline has passed, and when that ends.
module Ticks {
  import opened Results
  import opened OrderMachine
  import opened Orders

  // What the scheduler finds when it looks: whether the deposit has settled, how the vote went, whether
  // there is an address to pay, and whether the receipt and the row with the order's terms could be read.
  // An order whose terms cannot be read is handled as if it had none, without an error.
  datatype Finding = Finding(settled: bool, hold: bool, score: nat, payable: bool, receiptRead: bool, termsRead: bool)

  datatype Plan =
    | Go(a: Advance)      // one call of advanceAuth
    | LookAgainLater      // the deposit has not settled: only the deadline moves
    | NothingToDo
    | Broken              // the tick returns an error

  datatype Delay =
    | OneSecond | Fallback | CondSettle | DisputeWindow
    | MatchWindow | BindDelay | S1Window | TheirPay | S3Window | VerifyWindow | S4Delay

  function DeadlineFor(o: OrderRow, termsRead: bool): Option<Delay> {
    if o.terminal != TermNone then None
    else match o.kind
      case ConditionalTransfer => ConditionalDeadline(o, termsRead)
      case OTCTake => OTCDeadline(o, termsRead)
  }

  function ConditionalDeadline(o: OrderRow, termsRead: bool): Option<Delay> {
    match o.state
    case Fund => Some(if o.fundingVia then OneSecond else Fallback)
    case Locked => Some(OneSecond)
    case AwaitingCounterparty => Some(CondSettle)
    case AwaitingMe => Some(if termsRead && o.main == ProofWindow then DisputeWindow else Fallback)
    case Releasing => Some(OneSecond)
    case _ => None
  }

  function OTCDeadline(o: OrderRow, termsRead: bool): Option<Delay> {
    match o.state
    case Match => Some(MatchWindow)
    case S1 => Some(if termsRead && o.side == Buy then BindDelay else if o.fundingVia then OneSecond else S1Window)
    case S3 => Some(if termsRead && o.side == Sell then TheirPay else S3Window)
    case S3V => Some(VerifyWindow)
    case S4 => Some(S4Delay)
    case _ => None
  }

  function WaitForDeposit(f: Finding, dst: OrderState): Plan {
    if f.settled then Go(FundedCall(dst)) else LookAgainLater
  }

  function PlanOf(o: OrderRow, f: Finding): Plan {
    match o.kind
    case ConditionalTransfer => ConditionalPlan(o, f)
    case OTCTake => OTCPlan(o, f)
  }

  function ConditionalPlan(o: OrderRow, f: Finding): Plan {
    match o.state
    case Fund => if !o.fundingVia then Go(TickCall(Expired, Nothing)) else WaitForDeposit(f, Locked)
    case Locked => Go(TickCall(if f.termsRead && o.main == Immediate then Releasing else AwaitingCounterparty, Nothing))
    case AwaitingCounterparty =>
      Go(TickCall(if f.termsRead && o.main == OnDate then Releasing else AwaitingMe, Nothing))
    case AwaitingMe => Go(TickCall(if f.termsRead && o.main == ProofWindow then Releasing else Expired, Nothing))
    case Releasing => Go(if f.hold then VoteCall(AwaitingMe, 0) else VoteCall(Released, f.score))
    case _ => NothingToDo
  }

  function OTCPlan(o: OrderRow, f: Finding): Plan {
    match o.state
    case Match => Go(TickCall(Cancelled, ReturnReservation))
    case S1 =>
      if f.termsRead && o.side == Buy then (if f.payable then Go(BindCall()) else Broken)
      else if !o.fundingVia then Go(TickCall(Cancelled, ReturnReservation))
      else WaitForDeposit(f, S3)
    case S3 =>
      if f.termsRead && o.side == Sell then Go(ReceiptCall(Counterparty, o.counterparty))
      else Go(TickCall(Expired, ReturnReservation))
    case S3V =>
      if f.termsRead && o.side == Buy
      then (if o.receipt.Some? && f.receiptRead then Go(VerifyCall(Counterparty)) else Broken)
      else Go(TickCall(Expired, ReturnReservation))
    case S4 => Go(PayCall())
    case _ => NothingToDo
  }

  // ── every tick is legal ──

  predicate LegalCall(o: OrderRow, a: Advance) {
    Legal(o.kind, o.state, a.ev, a.actor, a.dst)
  }

  lemma RowLeads(k: nat, kind: Kind, src: OrderState, ev: OrderEvent, actor: Actor, dst: OrderState)
    requires k < |Table()| && Leads(Table()[k], kind, src, ev, actor, dst)
    ensures Legal(kind, src, ev, actor, dst)
  {}

  lemma EarlyTicksLegal()
    ensures Legal(ConditionalTransfer, Fund, EvTick, System, Expired)
    ensures Legal(ConditionalTransfer, Fund, EvFunded, System, Locked)
    ensures Legal(ConditionalTransfer, Locked, EvTick, System, AwaitingCounterparty)
    ensures Legal(ConditionalTransfer, Locked, EvTick, System, Releasing)
  {
    RowLeads(2, ConditionalTransfer, Fund, EvTick, System, Expired);
    RowLeads(0, ConditionalTransfer, Fund, EvFunded, System, Locked);
    RowLeads(3, ConditionalTransfer, Locked, EvTick, System, AwaitingCounterparty);
    RowLeads(4, ConditionalTransfer, Locked, EvTick, System, Releasing);
  }

  lemma LateTicksLegal()
    ensures Legal(ConditionalTransfer, AwaitingCounterparty, EvTick, System, AwaitingMe)
    ensures Legal(ConditionalTransfer, AwaitingCounterparty, EvTick, System, Releasing)
    ensures Legal(ConditionalTransfer, AwaitingMe, EvTick, System, Releasing)
    ensures Legal(ConditionalTransfer, AwaitingMe, EvTick, System, Expired)
  {
    RowLeads(6, ConditionalTransfer, AwaitingCounterparty, EvTick, System, AwaitingMe);
    RowLeads(7, ConditionalTransfer, AwaitingCounterparty, EvTick, System, Releasing);
    RowLeads(10, ConditionalTransfer, AwaitingMe, EvTick, System, Releasing);
    RowLeads(11, ConditionalTransfer, AwaitingMe, EvTick, System, Expired);
  }

  lemma VotesLegal()
    ensures Legal(ConditionalTransfer, Releasing, EvReleaseVote, Actor.Agent, Released)
    ensures Legal(ConditionalTransfer, Releasing, EvReleaseVote, Actor.Agent, AwaitingMe)
  {
    RowLeads(13, ConditionalTransfer, Releasing, EvReleaseVote, Actor.Agent, Released);
    RowLeads(14, ConditionalTransfer, Releasing, EvReleaseVote, Actor.Agent, AwaitingMe);
  }

  lemma OTCTicksLegal()
    ensures Legal(OTCTake, Match, EvTick, System, Cancelled)
    ensures Legal(OTCTake, S1, EvBind, System, S3)
    ensures Legal(OTCTake, S1, EvFunded, System, S3)
    ensures Legal(OTCTake, S3, EvReceipt, Counterparty, S3V)
    ensures Legal(OTCTake, S3, EvTick, System, Expired)
    ensures Legal(OTCTake, S3V, EvVerify, Counterparty, S4)
    ensures Legal(OTCTake, S3V, EvTick, System, Expired)
    ensures Legal(OTCTake, S4, EvTick, System, S5)
  {
    RowLeads(30, OTCTake, Match, EvTick, System, Cancelled);
    RowLeads(19, OTCTake, S1, EvBind, System, S3);
    RowLeads(20, OTCTake, S1, EvFunded, System, S3);
    RowLeads(22, OTCTake, S3, EvReceipt, Counterparty, S3V);
    RowLeads(31, OTCTake, S3, EvTick, System, Expired);
    RowLeads(24, OTCTake, S3V, EvVerify, Counterparty, S4);
    RowLeads(26, OTCTake, S3V, EvTick, System, Expired);
    RowLeads(27, OTCTake, S4, EvTick, System, S5);
  }

  lemma ConditionalTickLegal(o: OrderRow, f: Finding)
    requires o.kind == ConditionalTransfer
    ensures ConditionalPlan(o, f).Go? ==> LegalCall(o, ConditionalPlan(o, f).a)
  {
    EarlyTicksLegal();
    LateTicksLegal();
    VotesLegal();
  }

  // The one call of the scheduler that no row allows: the cancelling of an order in s1 that nobody is to
  // fund. It is made when the terms of a buy order could not be read.
  predicate Unlisted(o: OrderRow, f: Finding) {
    o.kind == OTCTake && o.state == S1 && !o.fundingVia && !(f.termsRead && o.side == Buy)
  }

  lemma OTCTickLegal(o: OrderRow, f: Finding)
    requires o.kind == OTCTake && OTCPlan(o, f).Go?
    ensures LegalCall(o, OTCPlan(o, f).a) <==> !Unlisted(o, f)
  {
    OTCTicksLegal();
    NoTickOutOfS1(System, Cancelled);
  }

  // Which orders the scheduler has a plan for, and that the plan is one of the service's calls.
  predicate PlanFits(o: OrderRow, f: Finding) {
    match PlanOf(o, f)
    case Go(a) => Issued(o, a)
    case LookAgainLater => !f.settled && NeedsFunding(o) && o.fundingVia
    case NothingToDo => false
    case Broken =>
      && o.kind == OTCTake && o.side == Buy
      && ((o.state == S1 && !f.payable) || (o.state == S3V && !f.receiptRead))
  }

  lemma ConditionalPlanFits(o: OrderRow, f: Finding)
    requires TickReady(o) && o.terminal == TermNone && o.kind == ConditionalTransfer
    ensures DeadlineFor(o, f.termsRead).Some? && PlanFits(o, f)
  {}

  lemma OTCPlanFits(o: OrderRow, f: Finding)
    requires TickReady(o) && o.terminal == TermNone && o.kind == OTCTake
    ensures DeadlineFor(o, f.termsRead).Some? && PlanFits(o, f)
  {}

  // Every order that has not ended is due at some time, and what the scheduler then does is one of the
  // service's calls, unless it waits for a deposit or something it needs could not be read. The table
  // allows the call, except exactly when the terms of a buy order in s1 could not be read.
  lemma EveryTickLegal(o: OrderRow, f: Finding)
    requires TickReady(o) && o.terminal == TermNone
    ensures DeadlineFor(o, f.termsRead).Some?
    ensures PlanFits(o, f)
    ensures PlanOf(o, f).Go? ==> (LegalCall(o, PlanOf(o, f).a) <==> !Unlisted(o, f))
    ensures Unlisted(o, f) ==> !f.termsRead && o.side == Buy
  {
    if o.kind == ConditionalTransfer {
      ConditionalPlanFits(o, f);
      ConditionalTickLegal(o, f);
    } else {
      OTCPlanFits(o, f);
      if PlanOf(o, f).Go? {
        OTCTickLegal(o, f);
      }
    }
  }

  lemma NoTickOutOfS1(actor: Actor, dst: OrderState)
    ensures !Legal(OTCTake, S1, EvTick, actor, dst)
  {
    if Legal(OTCTake, S1, EvTick, actor, dst) {
      LegalFlow(S1, EvTick, actor, dst);
    }
  }

  // So without the funding choice a sell order in s1 could never be moved by the scheduler, and a buy
  // order there is not moved while its terms cannot be read.
  lemma UnlistedTickFails(o: OrderRow, f: Finding)
    requires Unlisted(o, f)
    ensures PlanOf(o, f).Go? && Advanced(o, PlanOf(o, f).a).Failure?
  {
    NoTickOutOfS1(System, Cancelled);
    ApplyExactly(StandingOf(o), EvTick, System, Cancelled);
  }

  // ── ticks end ──

  // The row a call leaves when the table allows it.
  function Moved(o: OrderRow, a: Advance): OrderRow {
    o.(state := a.dst, terminal := TerminalOf(a.dst), lastFrom := o.state,
       fundingVia := o.fundingVia || a.extra == SetFunding,
       receipt := if a.extra.AddReceipt? then Some(a.extra.uploader) else o.receipt,
       counted := o.counted && a.extra != ReturnReservation)
  }

  // A tick that is more than waiting, and that the table allows.
  predicate Goes(o: OrderRow, f: Finding) {
    o.terminal == TermNone && PlanOf(o, f).Go? && !Unlisted(o, f)
  }

  // The order after one tick whose chain call goes through, see TickIsAdvance.
  function Ticked(o: OrderRow, f: Finding): OrderRow {
    if Goes(o, f) then Moved(o, PlanOf(o, f).a) else o
  }

  function AfterTicks(o: OrderRow, fs: seq<Finding>): OrderRow
    decreases |fs|
  {
    if fs == [] then o else AfterTicks(Ticked(o, fs[0]), fs[1..])
  }

  // A tick commits when it leaves the order in another state.
  predicate Commits(o: OrderRow, f: Finding) {
    Ticked(o, f).state != o.state
  }

  predicate Holds(o: OrderRow, f: Finding) {
    o.terminal == TermNone && o.state == Releasing && f.hold
  }

  function CommitCount(o: OrderRow, fs: seq<Finding>): nat
    decreases |fs|
  {
    if fs == [] then 0 else CommitCount(Ticked(o, fs[0]), fs[1..]) + if Commits(o, fs[0]) then 1 else 0
  }

  function HoldCount(o: OrderRow, fs: seq<Finding>): nat
    decreases |fs|
  {
    if fs == [] then 0 else HoldCount(Ticked(o, fs[0]), fs[1..]) + if Holds(o, fs[0]) then 1 else 0
  }

  predicate AllGoThrough(fs: seq<Finding>) {
    forall i :: 0 <= i < |fs| ==> fs[i].settled && fs[i].payable && fs[i].receiptRead && fs[i].termsRead
  }

  // What the scheduler's call commits is exactly the row after the tick.
  lemma TickIsAdvance(o: OrderRow, f: Finding)
    requires TickReady(o) && o.terminal == TermNone && PlanOf(o, f).Go?
    ensures Goes(o, f) ==> Advanced(o, PlanOf(o, f).a) == Success(Ticked(o, f))
    ensures !Goes(o, f) ==> Advanced(o, PlanOf(o, f).a) == Failure(InvalidTransition)
  {
    var a := PlanOf(o, f).a;
    EveryTickLegal(o, f);
    ApplyExactly(StandingOf(o), a.ev, a.actor, a.dst);
  }

  lemma PlanCommits(o: OrderRow, f: Finding)
    requires TickReady(o) && Goes(o, f)
    ensures TickReady(Ticked(o, f))
    ensures EdgeOk(Edge(o.kind, o.state, PlanOf(o, f).a.ev, [PlanOf(o, f).a.actor], Ticked(o, f).state,
                        TerminalOf(Ticked(o, f).state)))
  {
    var a := PlanOf(o, f).a;
    EveryTickLegal(o, f);
    TickIsAdvance(o, f);
    LegalMoves(o.kind, o.state, a.ev, a.actor, a.dst);
    AdvancedKeepsReady(o, a);
  }

  lemma HoldsExactly(o: OrderRow, f: Finding)
    requires TickReady(o) && Goes(o, f)
    ensures IsHold(o.state, PlanOf(o, f).a.dst) <==> Holds(o, f)
  {}

  // A tick either waits, or brings the order nearer to its end, or is a hold vote that sets it back by one.
  lemma TickProgress(o: OrderRow, f: Finding)
    requires TickReady(o)
    ensures TickReady(Ticked(o, f))
    ensures var o' := Ticked(o, f);
      if o.terminal != TermNone then o' == o
      else if !Goes(o, f) then o' == o && !(f.settled && f.payable && f.receiptRead && f.termsRead)
      else if Holds(o, f) then Commits(o, f) && Rank(o'.state) == Rank(o.state) + 1
      else Commits(o, f) && Rank(o'.state) < Rank(o.state)
  {
    if o.terminal == TermNone {
      EveryTickLegal(o, f);
      if Goes(o, f) {
        PlanCommits(o, f);
        HoldsExactly(o, f);
      }
    }
  }

  lemma OpenHasRank(o: OrderRow)
    requires TickReady(o)
    ensures o.terminal == TermNone ==> 1 <= Rank(o.state) <= 5
    ensures o.terminal != TermNone ==> Rank(o.state) == 0
  {}

  // Whatever the scheduler finds, the ticks that move an order are at most the order's distance from
  // the end plus two for every hold vote.
  lemma {:induction false} CommitsBounded(o: OrderRow, fs: seq<Finding>)
    requires TickReady(o)
    ensures TickReady(AfterTicks(o, fs))
    ensures CommitCount(o, fs) + Rank(AfterTicks(o, fs).state) <= Rank(o.state) + 2 * HoldCount(o, fs)
    decreases |fs|
  {
    if fs != [] {
      TickProgress(o, fs[0]);
      CommitsBounded(Ticked(o, fs[0]), fs[1..]);
    }
  }

  // While deposits settle and chain calls succeed, every tick on an order that has not ended moves it.
  lemma {:induction false} EveryTickMoves(o: OrderRow, fs: seq<Finding>)
    requires TickReady(o) && AllGoThrough(fs)
    ensures AfterTicks(o, fs).terminal != TermNone || CommitCount(o, fs) == |fs|
    decreases |fs|
  {
    if fs != [] {
      TickProgress(o, fs[0]);
      EveryTickMoves(Ticked(o, fs[0]), fs[1..]);
      if o.terminal != TermNone {
        EndedStaysEnded(o, fs);
      }
    }
  }

  lemma {:induction false} EndedStaysEnded(o: OrderRow, fs: seq<Finding>)
    requires o.terminal != TermNone
    ensures AfterTicks(o, fs) == o
    decreases |fs|
  {
    if fs != [] {
      EndedStaysEnded(o, fs[1..]);
    }
  }

  // An order left to the scheduler ends after at most five ticks and two more for every hold vote.
  lemma TicksTerminate(o: OrderRow, fs: seq<Finding>)
    requires TickReady(o) && AllGoThrough(fs)
    requires |fs| >= 5 + 2 * HoldCount(o, fs)
    ensures AfterTicks(o, fs).terminal != TermNone
  {
    CommitsBounded(o, fs);
    EveryTickMoves(o, fs);
    OpenHasRank(o);
    OpenHasRank(AfterTicks(o, fs));
  }

  // The only way back is from releasing to awaiting_me. The next tick there leads on, and so round again,
  // exactly when the branch is proof_window and the terms are read; otherwise it ends the order.
  lemma OnlyProofWindowRepeats(o: OrderRow, f: Finding)
    requires TickReady(o) && Goes(o, f)
    requires Rank(Ticked(o, f).state) >= Rank(o.state)
    ensures o.state == Releasing && Ticked(o, f).state == AwaitingMe && f.hold
    ensures forall g {:trigger Ticked(Ticked(o, f), g)} ::
              Ticked(Ticked(o, f), g).terminal == TermNone <==> o.main == ProofWindow && g.termsRead
  {
    TickProgress(o, f);
    var o' := Ticked(o, f);
    PlanCommits(o, f);
    assert o'.main == o.main && o'.terminal == TermNone;
    forall g ensures Ticked(o', g).terminal == TermNone <==> o.main == ProofWindow && g.termsRead {
      TickProgress(o', g);
      EveryTickLegal(o', g);
    }
  }

  // The bound is met: a proof_window order whose every vote is a hold is still open after 4 + 2h ticks.
  function HoldVote(): Finding {
    Finding(true, true, 0, true, true, true)
  }

  function HeldUp(n: nat): seq<Finding> {
    if n == 0 then [] else [HoldVote()] + HeldUp(n - 1)
  }

  lemma HeldUpStep(o: OrderRow, n: nat)
    requires n > 0
    ensures AfterTicks(o, HeldUp(n)) == AfterTicks(Ticked(o, HoldVote()), HeldUp(n - 1))
    ensures HoldCount(o, HeldUp(n))
            == HoldCount(Ticked(o, HoldVote()), HeldUp(n - 1)) + if Holds(o, HoldVote()) then 1 else 0
  {
    assert HeldUp(n)[0] == HoldVote() && HeldUp(n)[1..] == HeldUp(n - 1);
  }

  predicate Patient(o: OrderRow, s: OrderState) {
    TickReady(o) && o.kind == ConditionalTransfer && o.main == ProofWindow && o.fundingVia && Aims(To(s), o.state)
  }

  function Following(s: OrderState): OrderState {
    match s
    case Fund => Locked
    case Locked => AwaitingCounterparty
    case AwaitingCounterparty => AwaitingMe
    case AwaitingMe => Releasing
    case _ => AwaitingMe
  }

  lemma PatientStep(o: OrderRow, s: OrderState, n: nat)
    requires Patient(o, s) && n > 0
    requires s == Fund || s == Locked || s == AwaitingCounterparty || s == AwaitingMe || s == Releasing
    ensures Patient(Ticked(o, HoldVote()), Following(s))
    ensures AfterTicks(o, HeldUp(n)) == AfterTicks(Ticked(o, HoldVote()), HeldUp(n - 1))
    ensures HoldCount(o, HeldUp(n)) == HoldCount(Ticked(o, HoldVote()), HeldUp(n - 1)) + if s == Releasing then 1 else 0
  {
    HeldUpStep(o, n);
    PlanCommits(o, HoldVote());
  }

  // The two states a held-up order goes to and fro between.
  predicate ToAndFro(o: OrderRow) {
    Patient(o, Releasing) || Patient(o, AwaitingMe)
  }

  lemma ToAndFroStep(o: OrderRow, n: nat)
    requires ToAndFro(o) && n > 0
    ensures ToAndFro(Ticked(o, HoldVote()))
    ensures AfterTicks(o, HeldUp(n)) == AfterTicks(Ticked(o, HoldVote()), HeldUp(n - 1))
    ensures 1 + Rank(Ticked(o, HoldVote()).state) - Rank(o.state)
            == 2 * (HoldCount(o, HeldUp(n)) - HoldCount(Ticked(o, HoldVote()), HeldUp(n - 1)))
  {
    PatientStep(o, if Patient(o, Releasing) then Releasing else AwaitingMe, n);
  }

  lemma {:induction false} ToAndFroCount(o: OrderRow, n: nat)
    requires ToAndFro(o)
    ensures ToAndFro(AfterTicks(o, HeldUp(n)))
    ensures n + Rank(AfterTicks(o, HeldUp(n)).state) == Rank(o.state) + 2 * HoldCount(o, HeldUp(n))
    decreases n
  {
    if n > 0 {
      ToAndFroStep(o, n);
      ToAndFroCount(Ticked(o, HoldVote()), n - 1);
    }
  }

  lemma TickBoundIsMet(o: OrderRow, h: nat)
    requires Patient(o, Fund)
    ensures HoldCount(o, HeldUp(4 + 2 * h)) == h
    ensures AfterTicks(o, HeldUp(4 + 2 * h)).terminal == TermNone
  {
    PatientStep(o, Fund, 4 + 2 * h);
    var o1 := Ticked(o, HoldVote());
    PatientStep(o1, Locked, 3 + 2 * h);
    var o2 := Ticked(o1, HoldVote());
    PatientStep(o2, AwaitingCounterparty, 2 + 2 * h);
    var o3 := Ticked(o2, HoldVote());
    PatientStep(o3, AwaitingMe, 1 + 2 * h);
    ToAndFroCount(Ticked(o3, HoldVote()), 2 * h);
  }

  // ── the score of a vote ──

  function Passes(votes: seq<bool>): nat {
    if votes == [] then 0 else Passes(votes[..|votes| - 1]) + if votes[|votes| - 1] then 1 else 0
  }

  lemma {:induction false} PassesBounded(votes: seq<bool>)
    ensures Passes(votes) <= |votes|
    ensures Passes(votes) == |votes| <==> forall i :: 0 <= i < |votes| ==> votes[i]
  {
    if votes != [] {
      PassesBounded(votes[..|votes| - 1]);
    }
  }

  // The share of passes in per cent, rounded down: never above a hundred, a hundred exactly when all
  // pass, and enough for a contract that asks for `minScore` exactly when that share of the votes pass.
  method ConsensusScore(votes: seq<bool>) returns (score: nat)
    ensures score <= 100
    ensures score == 100 <==> votes != [] && forall i :: 0 <= i < |votes| ==> votes[i]
    ensures forall minScore: nat :: minScore > 0 ==>
              (score >= minScore <==> votes != [] && 100 * Passes(votes) >= minScore * |votes|)
  {
    if votes == [] { return 0; }
    var passed, i := 0, 0;
    while i < |votes|
      invariant 0 <= i <= |votes|
      invariant passed == Passes(votes[..i])
    {
      assert votes[..i + 1][..i] == votes[..i];
      if votes[i] { passed := passed + 1; }
      i := i + 1;
    }
    assert votes[..|votes|] == votes;
    PassesBounded(votes);
    score := passed * 100 / |votes|;
    ShareExactly(passed, |votes|);
  }

  lemma ShareExactly(passed: nat, n: nat)
    requires 0 < n && passed <= n
    ensures forall m: nat :: passed * 100 / n >= m <==> 100 * passed >= m * n
    ensures passed * 100 / n <= 100 && (passed * 100 / n == 100 <==> passed == n)
  {
    var q := passed * 100 / n;
    assert q * n <= passed * 100 < q * n + n;
    forall m: nat ensures q >= m <==> 100 * passed >= m * n {
      if q >= m {
        assert q * n >= m * n;
      } else {
        assert m * n >= (q + 1) * n == q * n + n;
      }
    }
    assert q >= 101 <==> 100 * passed >= 101 * n;
    assert q >= 100 <==> 100 * passed >= 100 * n;
  }
}
