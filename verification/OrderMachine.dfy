// The order's transition table, and what it allows.
module OrderMachine {
  import opened Results

  datatype Kind = ConditionalTransfer | OTCTake

  datatype OrderState =
    | Fund | Locked | AwaitingCounterparty | AwaitingMe | Releasing | Released
    | Match | S1 | S3 | S3V | S4 | S5
    | Cancelled | Expired | Disputed

  datatype Terminal = TermNone | TermCompleted | TermCancelled | TermExpired | TermDisputed

  datatype Actor = Owner | Counterparty | System | Agent

  datatype OrderEvent =
    | EvCreate | EvFunded | EvTick | EvConfirm | EvEvidence | EvCancel | EvDispute
    | EvReleaseVote | EvAccept | EvFund | EvBind | EvReceipt | EvVerify

  // The state a transition is asked for, or none in particular.
  datatype Target = Anywhere | To(state: OrderState)

  datatype OrderError = InvalidTransition | ReadOnly

  datatype Edge = Edge(kind: Kind, src: OrderState, event: OrderEvent, actors: seq<Actor>, dst: OrderState,
                       term: Terminal)

  function Sys(): seq<Actor> { [System] }
  function AgentOnly(): seq<Actor> { [Agent] }
  function OwnerOnly(): seq<Actor> { [Owner] }
  function CounterpartyOnly(): seq<Actor> { [Counterparty] }
  function Both(): seq<Actor> { [Owner, Counterparty, System] }

  function ConditionalEdges(): seq<Edge> {
    [
     Edge(ConditionalTransfer, Fund, EvFunded, Both(), Locked, TermNone),
     Edge(ConditionalTransfer, Fund, EvCancel, OwnerOnly(), Cancelled, TermCancelled),
     Edge(ConditionalTransfer, Fund, EvTick, Sys(), Expired, TermExpired),
     Edge(ConditionalTransfer, Locked, EvTick, Sys(), AwaitingCounterparty, TermNone),
     Edge(ConditionalTransfer, Locked, EvTick, Sys(), Releasing, TermNone),
     Edge(ConditionalTransfer, AwaitingCounterparty, EvEvidence, CounterpartyOnly(), AwaitingMe, TermNone),
     Edge(ConditionalTransfer, AwaitingCounterparty, EvTick, Sys(), AwaitingMe, TermNone),
     Edge(ConditionalTransfer, AwaitingCounterparty, EvTick, Sys(), Releasing, TermNone),
     Edge(ConditionalTransfer, AwaitingCounterparty, EvTick, Sys(), Expired, TermExpired),
     Edge(ConditionalTransfer, AwaitingMe, EvConfirm, OwnerOnly(), Releasing, TermNone),
     Edge(ConditionalTransfer, AwaitingMe, EvTick, Sys(), Releasing, TermNone),
     Edge(ConditionalTransfer, AwaitingMe, EvTick, Sys(), Expired, TermExpired),
     Edge(ConditionalTransfer, AwaitingMe, EvDispute, OwnerOnly(), Disputed, TermDisputed),
     Edge(ConditionalTransfer, Releasing, EvReleaseVote, AgentOnly(), Released, TermCompleted),
     Edge(ConditionalTransfer, Releasing, EvReleaseVote, AgentOnly(), AwaitingMe, TermNone),
     Edge(ConditionalTransfer, Locked, EvCancel, OwnerOnly(), Cancelled, TermCancelled),
     Edge(ConditionalTransfer, AwaitingCounterparty, EvCancel, OwnerOnly(), Cancelled, TermCancelled),
     Edge(ConditionalTransfer, AwaitingMe, EvCancel, OwnerOnly(), Cancelled, TermCancelled)]
  }

  function OTCEdges(): seq<Edge> {
    [
     Edge(OTCTake, Match, EvAccept, OwnerOnly(), S1, TermNone),
     Edge(OTCTake, S1, EvBind, Sys(), S3, TermNone),
     Edge(OTCTake, S1, EvFunded, Both(), S3, TermNone),
     Edge(OTCTake, S1, EvCancel, OwnerOnly(), Cancelled, TermCancelled),
     Edge(OTCTake, S3, EvReceipt, Both(), S3V, TermNone),
     Edge(OTCTake, S3, EvDispute, Both(), Disputed, TermDisputed),
     Edge(OTCTake, S3V, EvVerify, Both(), S4, TermNone),
     Edge(OTCTake, S3V, EvDispute, Both(), Disputed, TermDisputed),
     Edge(OTCTake, S3V, EvTick, Sys(), Expired, TermExpired),
     Edge(OTCTake, S4, EvTick, Sys(), S5, TermCompleted),
     Edge(OTCTake, Match, EvCancel, OwnerOnly(), Cancelled, TermCancelled),
     Edge(OTCTake, S3, EvCancel, OwnerOnly(), Cancelled, TermCancelled),
     Edge(OTCTake, Match, EvTick, Sys(), Cancelled, TermCancelled),
     Edge(OTCTake, S3, EvTick, Sys(), Expired, TermExpired)]
  }

  function Table(): seq<Edge> {
    ConditionalEdges() + OTCEdges()
  }

  // ── the scans ──

  // Comparisons of states stay inside predicates: spelled out in a proof they make it split on every state.
  predicate Concerns(e: Edge, kind: Kind, src: OrderState, ev: OrderEvent) {
    e.kind == kind && e.src == src && e.event == ev
  }

  predicate Matches(e: Edge, kind: Kind, src: OrderState, ev: OrderEvent, actor: Actor) {
    Concerns(e, kind, src, ev) && actor in e.actors
  }

  predicate Aims(dst: Target, s: OrderState) {
    dst == Anywhere || dst == To(s)
  }

  // The terminal written on the first edge from number `i` on that fits. No target asks only whether
  // the event is allowed at all.
  function Scan(edges: seq<Edge>, i: nat, kind: Kind, src: OrderState, ev: OrderEvent, actor: Actor,
                dst: Target): Result<Terminal, OrderError>
    requires i <= |edges|
    decreases |edges| - i
  {
    if i == |edges| then Failure(InvalidTransition)
    else if Matches(edges[i], kind, src, ev, actor) && Aims(dst, edges[i].dst) then Success(edges[i].term)
    else Scan(edges, i + 1, kind, src, ev, actor, dst)
  }

  function Check(kind: Kind, src: OrderState, ev: OrderEvent, actor: Actor, dst: Target): Result<Terminal, OrderError> {
    Scan(Table(), 0, kind, src, ev, actor, dst)
  }

  predicate Leads(e: Edge, kind: Kind, src: OrderState, ev: OrderEvent, actor: Actor, dst: OrderState) {
    Matches(e, kind, src, ev, actor) && Aims(To(dst), e.dst)
  }

  // One of the first `n` edges leads there.
  predicate LegalIn(edges: seq<Edge>, n: nat, kind: Kind, src: OrderState, ev: OrderEvent, actor: Actor,
                    dst: OrderState)
    requires n <= |edges|
  {
    exists i :: 0 <= i < n && Leads(edges[i], kind, src, ev, actor, dst)
  }

  predicate Legal(kind: Kind, src: OrderState, ev: OrderEvent, actor: Actor, dst: OrderState) {
    LegalIn(Table(), |Table()|, kind, src, ev, actor, dst)
  }

  // Where the first `n` edges lead, in their order.
  function TargetsIn(edges: seq<Edge>, n: nat, kind: Kind, src: OrderState, ev: OrderEvent,
                     actor: Actor): seq<OrderState>
    requires n <= |edges|
  {
    if n == 0 then []
    else
      var before := TargetsIn(edges, n - 1, kind, src, ev, actor);
      if Matches(edges[n - 1], kind, src, ev, actor) then before + [edges[n - 1].dst] else before
  }

  // ── the order's own part of a transition ──

  datatype Standing = Standing(kind: Kind, state: OrderState, terminal: Terminal)

  function Apply(o: Standing, ev: OrderEvent, actor: Actor, dst: OrderState): Result<Standing, OrderError> {
    if o.terminal != TermNone then Failure(ReadOnly)
    else
      var term :- Check(o.kind, o.state, ev, actor, To(dst));
      Success(o.(state := dst, terminal := term))
  }

  // The platform's ruling on a dispute. It goes round the table on purpose.
  function Rule(o: Standing, release: bool): Result<Standing, OrderError> {
    if o.state != Disputed then Failure(InvalidTransition)
    else if release then Success(o.(state := Released, terminal := TermCompleted))
    else Success(o.(state := Cancelled, terminal := TermCancelled))
  }

  function Created(kind: Kind): Standing {
    Standing(kind, if kind == ConditionalTransfer then Fund else Match, TermNone)
  }

  // ── what every edge of the table has ──

  // How a state ends an order, if it does. The table never says otherwise.
  function TerminalOf(s: OrderState): Terminal {
    match s
    case Released => TermCompleted
    case S5 => TermCompleted
    case Cancelled => TermCancelled
    case Expired => TermExpired
    case Disputed => TermDisputed
    case _ => TermNone
  }

  // The milestones an order has to pass, in order, before it can be completed through the table.
  predicate Milestone(kind: Kind, n: nat, ev: OrderEvent) {
    match kind
    case ConditionalTransfer => (n == 0 && ev == EvFunded) || (n == 1 && ev == EvReleaseVote)
    case OTCTake =>
      || (n == 0 && ev == EvAccept)
      || (n == 1 && (ev == EvBind || ev == EvFunded))
      || (n == 2 && ev == EvReceipt)
      || (n == 3 && ev == EvVerify)
      || (n == 4 && ev == EvTick)
  }

  function Milestones(kind: Kind): nat {
    if kind == ConditionalTransfer then 2 else 5
  }

  // How many of them being in a state stands for.
  function Stage(s: OrderState): nat {
    match s
    case Locked => 1 case AwaitingCounterparty => 1 case AwaitingMe => 1 case Releasing => 1
    case Released => 2
    case S1 => 1 case S3 => 2 case S3V => 3 case S4 => 4 case S5 => 5
    case _ => 0
  }

  // How far a state is from the end, at most.
  function Rank(s: OrderState): nat {
    match s
    case Fund => 5 case Locked => 4 case AwaitingCounterparty => 3 case AwaitingMe => 2 case Releasing => 1
    case Match => 5 case S1 => 4 case S3 => 3 case S3V => 2 case S4 => 1
    case _ => 0
  }

  predicate IsHold(src: OrderState, dst: OrderState) {
    src == Releasing && dst == AwaitingMe
  }

  predicate InKind(kind: Kind, s: OrderState) {
    match s
    case Fund => kind == ConditionalTransfer case Locked => kind == ConditionalTransfer
    case AwaitingCounterparty => kind == ConditionalTransfer case AwaitingMe => kind == ConditionalTransfer
    case Releasing => kind == ConditionalTransfer case Released => kind == ConditionalTransfer
    case Match => kind == OTCTake case S1 => kind == OTCTake case S3 => kind == OTCTake
    case S3V => kind == OTCTake case S4 => kind == OTCTake case S5 => kind == OTCTake
    case _ => true
  }

  predicate EndsRight(e: Edge) {
    e.term == TerminalOf(e.dst) && TerminalOf(e.src) == TermNone
  }

  predicate StaysInKind(e: Edge) {
    InKind(e.kind, e.src) && InKind(e.kind, e.dst)
  }

  predicate Staged(e: Edge) {
    Stage(e.dst) <= Stage(e.src) + (if Milestone(e.kind, Stage(e.src), e.event) then 1 else 0)
  }

  predicate Nearer(e: Edge) {
    IsHold(e.src, e.dst) || Rank(e.dst) < Rank(e.src)
  }

  predicate EdgeOk(e: Edge) {
    EndsRight(e) && StaysInKind(e) && Staged(e) && Nearer(e)
  }

  predicate AllOk(edges: seq<Edge>) {
    forall i :: 0 <= i < |edges| ==> EdgeOk(edges[i])
  }

  lemma ConditionalEdgeEnds(i: nat)
    requires i < |ConditionalEdges()|
    ensures EndsRight(ConditionalEdges()[i]) && StaysInKind(ConditionalEdges()[i])
  {}

  lemma ConditionalEdgeStaged(i: nat)
    requires i < |ConditionalEdges()|
    ensures Staged(ConditionalEdges()[i])
  {}

  lemma ConditionalEdgeNearer(i: nat)
    requires i < |ConditionalEdges()|
    ensures Nearer(ConditionalEdges()[i])
  {}

  lemma OTCEdgeEnds(i: nat)
    requires i < |OTCEdges()|
    ensures EndsRight(OTCEdges()[i]) && StaysInKind(OTCEdges()[i])
  {}

  lemma OTCEdgeStaged(i: nat)
    requires i < |OTCEdges()|
    ensures Staged(OTCEdges()[i])
  {}

  lemma OTCEdgeNearer(i: nat)
    requires i < |OTCEdges()|
    ensures Nearer(OTCEdges()[i])
  {}

  lemma EveryEdgeOk()
    ensures AllOk(Table())
  {
    var n := |ConditionalEdges()|;
    forall i | 0 <= i < |Table()| ensures EdgeOk(Table()[i]) {
      if i < n {
        ConditionalEdgeEnds(i);
        ConditionalEdgeStaged(i);
        ConditionalEdgeNearer(i);
      } else {
        OTCEdgeEnds(i - n);
        OTCEdgeStaged(i - n);
        OTCEdgeNearer(i - n);
      }
    }
  }

  // ── the scans against the table ──

  // A scan answers with an edge that fits, or there is none; with no target any edge for the event fits.
  lemma {:induction false} ScanFinds(edges: seq<Edge>, i: nat, kind: Kind, src: OrderState, ev: OrderEvent,
                                     actor: Actor, dst: Target)
    requires i <= |edges|
    ensures var r := Scan(edges, i, kind, src, ev, actor, dst);
      && (r.Success? ==> exists j :: i <= j < |edges| && Matches(edges[j], kind, src, ev, actor)
                                     && Aims(dst, edges[j].dst) && edges[j].term == r.value)
      && (r.Failure? ==> r.error == InvalidTransition
                         && forall j :: i <= j < |edges| && Matches(edges[j], kind, src, ev, actor) ==>
                                          !Aims(dst, edges[j].dst))
    decreases |edges| - i
  {
    if i < |edges| {
      ScanFinds(edges, i + 1, kind, src, ev, actor, dst);
    }
  }

  lemma {:induction false} ScanExactly(edges: seq<Edge>, i: nat, kind: Kind, src: OrderState, ev: OrderEvent,
                                       actor: Actor, dst: OrderState)
    requires AllOk(edges) && i <= |edges|
    ensures Scan(edges, i, kind, src, ev, actor, To(dst)) ==
            if exists j :: i <= j < |edges| && Leads(edges[j], kind, src, ev, actor, dst) then Success(TerminalOf(dst))
            else Failure(InvalidTransition)
    decreases |edges| - i
  {
    if i < |edges| {
      ScanExactly(edges, i + 1, kind, src, ev, actor, dst);
      assert EdgeOk(edges[i]);
    }
  }

  // A named target is reachable exactly when some edge leads to it, and then the terminal is the
  // target's own: it does not matter which of several edges the scan meets first.
  lemma CheckExactly(kind: Kind, src: OrderState, ev: OrderEvent, actor: Actor, dst: OrderState)
    ensures Check(kind, src, ev, actor, To(dst)) ==
            if Legal(kind, src, ev, actor, dst) then Success(TerminalOf(dst)) else Failure(InvalidTransition)
  {
    EveryEdgeOk();
    ScanExactly(Table(), 0, kind, src, ev, actor, dst);
  }

  predicate Among(dsts: seq<OrderState>, dst: OrderState) {
    exists k :: 0 <= k < |dsts| && Aims(To(dst), dsts[k])
  }

  // The listed targets are exactly the states some edge leads to.
  lemma {:induction false} TargetsExactly(edges: seq<Edge>, n: nat, kind: Kind, src: OrderState, ev: OrderEvent,
                                          actor: Actor, dst: OrderState)
    requires n <= |edges|
    ensures Among(TargetsIn(edges, n, kind, src, ev, actor), dst) <==> LegalIn(edges, n, kind, src, ev, actor, dst)
  {
    if n > 0 {
      TargetsExactly(edges, n - 1, kind, src, ev, actor, dst);
      OneMoreEdge(edges, n, kind, src, ev, actor, dst);
      OneMoreRow(edges, n, kind, src, ev, actor, dst);
    }
  }

  lemma OneMoreRow(edges: seq<Edge>, n: nat, kind: Kind, src: OrderState, ev: OrderEvent, actor: Actor, dst: OrderState)
    requires 0 < n <= |edges|
    ensures Among(TargetsIn(edges, n, kind, src, ev, actor), dst) <==>
            Among(TargetsIn(edges, n - 1, kind, src, ev, actor), dst) || Leads(edges[n - 1], kind, src, ev, actor, dst)
  {
    if Matches(edges[n - 1], kind, src, ev, actor) {
      RowFits(edges, n, kind, src, ev, actor, dst);
    } else {
      RowSkips(edges, n, kind, src, ev, actor, dst);
    }
  }

  lemma RowFits(edges: seq<Edge>, n: nat, kind: Kind, src: OrderState, ev: OrderEvent, actor: Actor, dst: OrderState)
    requires 0 < n <= |edges|
    requires Matches(edges[n - 1], kind, src, ev, actor)
    ensures Among(TargetsIn(edges, n, kind, src, ev, actor), dst) <==>
            Among(TargetsIn(edges, n - 1, kind, src, ev, actor), dst) || Leads(edges[n - 1], kind, src, ev, actor, dst)
  {
    OneMoreTarget(TargetsIn(edges, n - 1, kind, src, ev, actor), edges[n - 1].dst, dst);
  }

  lemma RowSkips(edges: seq<Edge>, n: nat, kind: Kind, src: OrderState, ev: OrderEvent, actor: Actor, dst: OrderState)
    requires 0 < n <= |edges|
    requires !Matches(edges[n - 1], kind, src, ev, actor)
    ensures Among(TargetsIn(edges, n, kind, src, ev, actor), dst) <==>
            Among(TargetsIn(edges, n - 1, kind, src, ev, actor), dst)
    ensures !Leads(edges[n - 1], kind, src, ev, actor, dst)
  {
  }

  lemma OneMoreTarget(dsts: seq<OrderState>, x: OrderState, dst: OrderState)
    ensures Among(dsts + [x], dst) <==> Among(dsts, dst) || Aims(To(dst), x)
  {
    if Among(dsts, dst) {
      var k :| 0 <= k < |dsts| && Aims(To(dst), dsts[k]);
      assert (dsts + [x])[k] == dsts[k];
    }
    assert (dsts + [x])[|dsts|] == x;
  }

  lemma OneMoreEdge(edges: seq<Edge>, n: nat, kind: Kind, src: OrderState, ev: OrderEvent, actor: Actor,
                    dst: OrderState)
    requires 0 < n <= |edges|
    ensures LegalIn(edges, n, kind, src, ev, actor, dst) <==>
            LegalIn(edges, n - 1, kind, src, ev, actor, dst) || Leads(edges[n - 1], kind, src, ev, actor, dst)
  {}

  // What an accepted transition does, and when it is accepted.
  lemma ApplyExactly(o: Standing, ev: OrderEvent, actor: Actor, dst: OrderState)
    ensures Apply(o, ev, actor, dst) ==
            if o.terminal != TermNone then Failure(ReadOnly)
            else if Legal(o.kind, o.state, ev, actor, dst) then Success(Standing(o.kind, dst, TerminalOf(dst)))
            else Failure(InvalidTransition)
  {
    CheckExactly(o.kind, o.state, ev, actor, dst);
  }

  // Every legal move, whatever row allows it.
  lemma LegalMoves(kind: Kind, src: OrderState, ev: OrderEvent, actor: Actor, dst: OrderState)
    requires Legal(kind, src, ev, actor, dst)
    ensures EdgeOk(Edge(kind, src, ev, [actor], dst, TerminalOf(dst)))
  {
    EveryEdgeOk();
    LegalEdge(Table(), kind, src, ev, actor, dst);
  }

  lemma LegalEdge(edges: seq<Edge>, kind: Kind, src: OrderState, ev: OrderEvent, actor: Actor, dst: OrderState)
    requires AllOk(edges) && LegalIn(edges, |edges|, kind, src, ev, actor, dst)
    ensures EdgeOk(Edge(kind, src, ev, [actor], dst, TerminalOf(dst)))
  {
    var i :| 0 <= i < |edges| && Leads(edges[i], kind, src, ev, actor, dst);
    assert EdgeOk(edges[i]);
  }

  // ── the OTC lane ──

  // The states of an OTC order whose coins have been put in escrow at some time.
  predicate PastFunding(s: OrderState) {
    match s
    case S3 => true case S3V => true case S4 => true case S5 => true
    case Disputed => true case Released => true
    case _ => false
  }

  predicate IsS4(s: OrderState) {
    s == S4
  }

  predicate IsS1(s: OrderState) {
    s == S1
  }

  // A binding moves an order from s1, and out of s1 lead only a binding, a deposit and a cancellation.
  predicate EntryOk(e: Edge) {
    && (e.event == EvBind ==> IsS1(e.src))
    && (IsS1(e.src) ==> e.event == EvBind || e.event == EvFunded || e.event == EvCancel)
  }

  predicate PassesOn(e: Edge) {
    && (PastFunding(e.dst) ==> PastFunding(e.src) || e.event == EvBind || e.event == EvFunded)
    && (IsS4(e.src) <==> TerminalOf(e.dst) == TermCompleted)
    && (IsS4(e.src) ==> e.dst == S5)
  }

  predicate FlowOk(e: Edge) {
    e.kind == OTCTake ==> EntryOk(e) && PassesOn(e)
  }

  predicate AllFlow(edges: seq<Edge>) {
    forall i :: 0 <= i < |edges| ==> FlowOk(edges[i])
  }

  lemma OTCEntry(i: nat)
    requires i < |OTCEdges()|
    ensures EntryOk(OTCEdges()[i])
  {}

  lemma OTCPassesOn(i: nat)
    requires i < |OTCEdges()|
    ensures PassesOn(OTCEdges()[i])
  {}

  lemma NotOTC(i: nat)
    requires i < |ConditionalEdges()|
    ensures ConditionalEdges()[i].kind == ConditionalTransfer
  {}

  lemma EveryEdgeFlows()
    ensures AllFlow(Table())
  {
    var n := |ConditionalEdges()|;
    forall i | 0 <= i < |Table()| ensures FlowOk(Table()[i]) {
      if i < n {
        NotOTC(i);
      } else {
        OTCEntry(i - n);
        OTCPassesOn(i - n);
      }
    }
  }

  lemma FlowEdge(edges: seq<Edge>, src: OrderState, ev: OrderEvent, actor: Actor, dst: OrderState)
    requires AllFlow(edges) && LegalIn(edges, |edges|, OTCTake, src, ev, actor, dst)
    ensures FlowOk(Edge(OTCTake, src, ev, [actor], dst, TerminalOf(dst)))
  {
    var i :| 0 <= i < |edges| && Leads(edges[i], OTCTake, src, ev, actor, dst);
    assert FlowOk(edges[i]);
  }

  // Escrow is entered only by a binding, which moves an order from s1, or a deposit; out of s1 lead only
  // these and a cancellation; an order is completed only from s4, which leads nowhere else.
  lemma LegalFlow(src: OrderState, ev: OrderEvent, actor: Actor, dst: OrderState)
    requires Legal(OTCTake, src, ev, actor, dst)
    ensures FlowOk(Edge(OTCTake, src, ev, [actor], dst, TerminalOf(dst)))
  {
    EveryEdgeFlows();
    FlowEdge(Table(), src, ev, actor, dst);
  }

  // ── whole lives of an order ──

  // What can be tried on an order: an event with its actor and target, or a ruling.
  datatype Move = Try(ev: OrderEvent, actor: Actor, dst: OrderState) | Ruling(release: bool)

  function TryMove(o: Standing, m: Move): Result<Standing, OrderError> {
    match m
    case Try(ev, actor, dst) => Apply(o, ev, actor, dst)
    case Ruling(release) => Rule(o, release)
  }

  // The order after a series of attempts, with the moves that were accepted.
  function Life(kind: Kind, moves: seq<Move>): (Standing, seq<Move>) {
    if moves == [] then (Created(kind), []) else
      var (o, done) := Life(kind, moves[..|moves| - 1]);
      var m := moves[|moves| - 1];
      match TryMove(o, m)
      case Success(o') => (o', done + [m])
      case Failure(_) => (o, done)
  }

  // How many milestones the accepted moves have passed, counting each only after the one before it.
  function Passed(kind: Kind, done: seq<Move>): nat {
    if done == [] then 0 else
      var n := Passed(kind, done[..|done| - 1]);
      var m := done[|done| - 1];
      if m.Try? && Milestone(kind, n, m.ev) then n + 1 else n
  }

  predicate WellPlaced(o: Standing) {
    && o.terminal == TerminalOf(o.state)
    && (InKind(o.kind, o.state) || o.state == Released)
  }

  predicate WasRuled(done: seq<Move>) {
    exists i :: 0 <= i < |done| && done[i].Ruling?
  }

  predicate StageEarned(o: Standing, done: seq<Move>) {
    Stage(o.state) <= Passed(o.kind, done)
  }

  lemma PassedStep(kind: Kind, done: seq<Move>, m: Move)
    ensures Passed(kind, done + [m]) == Passed(kind, done)
            + (if m.Try? && Milestone(kind, Passed(kind, done), m.ev) then 1 else 0)
  {
    assert (done + [m])[..|done|] == done;
  }

  lemma RuledStep(done: seq<Move>, m: Move)
    ensures WasRuled(done + [m]) <==> WasRuled(done) || m.Ruling?
  {
    if WasRuled(done) {
      var i :| 0 <= i < |done| && done[i].Ruling?;
      assert (done + [m])[i].Ruling?;
    }
    if m.Ruling? { assert (done + [m])[|done|].Ruling?; }
  }

  // Whatever is tried on an order, its terminal is the one of its state, it stays among the states of
  // its kind, and unless a dispute was ruled on it has passed the milestones its state stands for.
  lemma {:induction false} LifeKeeps(kind: Kind, moves: seq<Move>)
    ensures var (o, done) := Life(kind, moves);
      o.kind == kind && WellPlaced(o) && (WasRuled(done) || (InKind(kind, o.state) && StageEarned(o, done)))
  {
    if moves == [] {
    } else {
      var init, m := moves[..|moves| - 1], moves[|moves| - 1];
      LifeKeeps(kind, init);
      var (o, done) := Life(kind, init);
      RuledStep(done, m);
      PassedStep(kind, done, m);
      if m.Try? {
        ApplyExactly(o, m.ev, m.actor, m.dst);
        if Apply(o, m.ev, m.actor, m.dst).Success? {
          LegalMoves(kind, o.state, m.ev, m.actor, m.dst);
        }
      }
    }
  }

  // An order is completed either by a ruling on its dispute, or after its milestones in order: an OTC
  // order was accepted, then bound or funded, then a receipt came, then the receipt was verified, then
  // it was released; a conditional one was funded, then voted for.
  lemma CompletedOnlyInOrder(kind: Kind, moves: seq<Move>)
    requires Life(kind, moves).0.terminal == TermCompleted
    ensures WasRuled(Life(kind, moves).1) || Passed(kind, Life(kind, moves).1) >= Milestones(kind)
  {
    LifeKeeps(kind, moves);
  }

  // A final state is final: only a ruling moves an order that has ended, and only out of a dispute.
  lemma TerminalIsReadOnly(kind: Kind, moves: seq<Move>, m: Move)
    requires Life(kind, moves).0.terminal != TermNone
    ensures TryMove(Life(kind, moves).0, m).Success? <==> Life(kind, moves).0.state == Disputed && m.Ruling?
  {
    LifeKeeps(kind, moves);
  }

  // ── the same, done in place ──

  method HasActor(actors: seq<Actor>, a: Actor) returns (found: bool)
    ensures found <==> a in actors
  {
    var i := 0;
    while i < |actors|
      invariant 0 <= i <= |actors|
      invariant a !in actors[..i]
    {
      if actors[i] == a { return true; }
      i := i + 1;
    }
    return false;
  }

  method Fits(e: Edge, kind: Kind, src: OrderState, ev: OrderEvent, actor: Actor) returns (fits: bool)
    ensures fits == Matches(e, kind, src, ev, actor)
  {
    var able := HasActor(e.actors, actor);
    return Concerns(e, kind, src, ev) && able;
  }

  method ScanEdges(edges: seq<Edge>, kind: Kind, src: OrderState, ev: OrderEvent, actor: Actor, dst: Target)
    returns (term: Result<Terminal, OrderError>)
    ensures term == Scan(edges, 0, kind, src, ev, actor, dst)
  {
    var i := 0;
    while i < |edges|
      invariant 0 <= i <= |edges|
      invariant Scan(edges, 0, kind, src, ev, actor, dst) == Scan(edges, i, kind, src, ev, actor, dst)
    {
      var fits := Fits(edges[i], kind, src, ev, actor);
      if fits && Aims(dst, edges[i].dst) {
        return Success(edges[i].term);
      }
      i := i + 1;
    }
    return Failure(InvalidTransition);
  }

  method Targets(edges: seq<Edge>, kind: Kind, src: OrderState, ev: OrderEvent, actor: Actor)
    returns (dsts: seq<OrderState>)
    ensures dsts == TargetsIn(edges, |edges|, kind, src, ev, actor)
  {
    dsts := [];
    var i := 0;
    while i < |edges|
      invariant 0 <= i <= |edges|
      invariant dsts == TargetsIn(edges, i, kind, src, ev, actor)
    {
      var fits := Fits(edges[i], kind, src, ev, actor);
      if fits {
        dsts := dsts + [edges[i].dst];
      }
      i := i + 1;
    }
  }

  class Order {
    const kind: Kind
    var state: OrderState
    var terminal: Terminal
    var deadline: Option<int>

    constructor (kind: Kind, deadline: Option<int>)
      ensures Now() == Created(kind) && this.deadline == deadline
    {
      this.kind, this.deadline := kind, deadline;
      state, terminal := if kind == ConditionalTransfer then Fund else Match, TermNone;
    }

    function Now(): Standing
      reads this
    {
      Standing(kind, state, terminal)
    }

    // The order moved as `outcome` says and waits for a new deadline, or it was left alone.
    twostate predicate Did(outcome: Result<Standing, OrderError>, new refused: Option<OrderError>)
      reads this
    {
      match outcome
      case Success(o) => refused == None && Now() == o && deadline == None
      case Failure(e) => refused == Some(e) && Now() == old(Now()) && deadline == old(deadline)
    }

    method ApplyEvent(ev: OrderEvent, actor: Actor, dst: OrderState) returns (refused: Option<OrderError>)
      modifies this
      ensures Did(Apply(old(Now()), ev, actor, dst), refused)
    {
      if terminal != TermNone { return Some(ReadOnly); }
      var term := ScanEdges(Table(), kind, state, ev, actor, To(dst));
      if term.Failure? { return Some(term.error); }
      state := dst;
      terminal := term.value;
      deadline := None;
      return None;
    }

    method ResolveDispute(release: bool) returns (refused: Option<OrderError>)
      modifies this
      ensures Did(Rule(old(Now()), release), refused)
    {
      if state != Disputed { return Some(InvalidTransition); }
      if release {
        state := Released;
        terminal := TermCompleted;
      } else {
        state := Cancelled;
        terminal := TermCancelled;
      }
      deadline := None;
      return None;
    }
  }
}
