// What a run may do that sets the two ledgers apart, and to which orders it did it.
module PlatformCauses {
  import opened Results
  import opened EscrowModel
  import opened EscrowBooks
  import opened OrderMachine
  import opened Orders
  import opened Platform
  import opened PlatformBooks

  predicate IsSlice(P: Positions, id: Id) {
    id in P && P[id].offerId != 0
  }

  // Settlement does nothing about a slice that is in dispute on the contract or settled, nor about one it
  // cannot read.
  predicate LeftAlone(p: Position, seal: Seal) {
    p.status != Escrowed || !seal.positionRead
  }

  // The call will give the amount back to the offer, and leaves a slice behind that was not refunded.
  predicate LeavesBehind(P: Positions, seal: Seal, id: Id, a: Advance) {
    && a.extra == ReturnReservation && seal.termsRead
    && IsSlice(P, id) && P[id].status != Refunded && LeftAlone(P[id], seal)
  }

  predicate Returns(p: Pending, id: Id) {
    p.AdvancePending? && p.id == id && p.a.extra == ReturnReservation
  }

  ghost predicate ReturnUnderWay(Q: multiset<Pending>, id: Id) {
    exists p {:trigger Returns(p, id)} :: p in Q && Returns(p, id)
  }

  // A completion, by a call or a ruling, that has nobody to pay, as far as it could read, and was not paid.
  predicate PaysNobody(cfg: Config, w: World, id: Id, term: Terminal, seal: Seal) {
    && id in w.orders && term == TermCompleted
    && PayeeRead(cfg, w.orders[id], seal) == 0 && !IsReleased(w.chain.positions, id)
  }

  datatype Cause =
    | LeftBehind     // a return was begun over a slice that settlement left alone
    | BoundLate      // the platform bound a slice while a return of the order was under way
    | BoundByOthers  // somebody else bound a slice to the id
    | PayeeUnread    // a completion was begun that could not read whom to pay
    | TermsUnread    // a return was begun that could not read the order's terms

  // The order that one happening does it to, if it does.
  ghost function CausedBy(cfg: Config, w: World, h: Happening, c: Cause): set<Id> {
    match h
    case Others(tx, call) =>
      if c.BoundByOthers? && call.BindListingLockCall? && Step(cfg.dep, w.chain, tx, call).Success?
      then {call.orderId} else {}
    case AdvanceBegins(tx, seal, id, a) =>
      if BeginAdvance(cfg, w, tx, seal, id, a).Success? && AdvanceCauses(cfg, w, seal, id, a, c) then {id} else {}
    case RulingBegins(tx, seal, id, release) =>
      if c.PayeeUnread? && BeginRuling(cfg, w, tx, seal, id, release).Success?
         && PaysNobody(cfg, w, id, RulingTerm(release), seal)
      then {id} else {}
    case _ => {}
  }

  ghost predicate AdvanceCauses(cfg: Config, w: World, seal: Seal, id: Id, a: Advance, c: Cause) {
    match c
    case LeftBehind => LeavesBehind(w.chain.positions, seal, id, a)
    case BoundLate => a.ev == EvBind && ReturnUnderWay(w.pending, id)
    case BoundByOthers => false
    case PayeeUnread => PaysNobody(cfg, w, id, TerminalOf(a.dst), seal)
    case TermsUnread => a.extra == ReturnReservation && !seal.termsRead
  }

  // All the orders that a run does it to.
  ghost function Caused(cfg: Config, w: World, run: seq<Happening>, c: Cause): set<Id>
    decreases |run|
  {
    if run == [] then {} else CausedBy(cfg, w, run[0], c) + Caused(cfg, Next(cfg, w, run[0]), run[1..], c)
  }
}
