// What the calls that bring money in, set it aside and take it back need and do, for every caller and
// every token contract, and which of them undo each other.
module EscrowCalls {
  import opened Results
  import opened Erc20
  import opened EscrowModel
  import opened EscrowQuorum
  import opened EscrowBooks
  import opened EscrowSteps
  import opened EscrowTheorems

  // The payer approved and has the amount, and the token keeps none of it on the way.
  predicate CanCollect(self: Address, T: Ledgers, token: Address, src: Address, amount: uint256) {
    && token in T
    && amount <= Allowance(T[token], src, self) && amount <= BalanceOf(T[token], src)
    && Arrival(T[token], amount) == amount
  }

  // Exactly `amount` of one token went from `src` to the contract, and nobody else noticed.
  ghost predicate Collected(self: Address, T: Ledgers, T': Ledgers, token: Address, src: Address, amount: int) {
    && T'.Keys == T.Keys
    && forall t, a :: t in T ==>
         BalanceOf(T'[t], a) ==
         BalanceOf(T[t], a) + if t != token then 0 else if a == self then amount else if a == src then 0 - amount else 0
  }

  lemma PullExactly(dep: Deployment, s: State, token: Address, src: Address, amount: uint256)
    requires TokensOk(dep.self, s.tokens) && src != dep.self
    ensures Pull(dep, s, token, src, amount).Success? <==> CanCollect(dep.self, s.tokens, token, src, amount)
    ensures Pull(dep, s, token, src, amount).Success? ==>
            var s' := Pull(dep, s, token, src, amount).value;
            s' == s.(tokens := s'.tokens) && Collected(dep.self, s.tokens, s'.tokens, token, src, amount)
  {
    if token in s.tokens {
      var l := s.tokens[token];
      assert LedgerOk(dep.self, l);
      TransferFromRefusedOnlyByAllowanceOrBalance(l, dep.self, src, dep.self, amount);
      if TransferFrom(l, dep.self, src, dep.self, amount).Success? {
        TransferFromMoves(l, dep.self, src, dep.self, amount);
      }
    }
  }

  // A deposit is accepted exactly when it should be, makes the caller the payer and the one named the
  // beneficiary, and takes exactly the amount from the caller.
  lemma DepositExactly(dep: Deployment, s: State, tx: Tx, id: Id, token: Address, amount: uint256, beneficiary: Address)
    requires Inv(dep, s) && Sendable(dep, tx)
    ensures var r := Step(dep, s, tx, DepositCall(id, token, amount, beneficiary));
      && (r.Success? <==>
            && !s.depositsPaused && amount > 0 && token != 0 && beneficiary != 0 && id !in s.positions
            && CanCollect(dep.self, s.tokens, token, tx.sender, amount))
      && (r.Success? ==>
            && r.value.positions == s.positions[id := Position(token, amount, tx.sender, beneficiary, 0, Escrowed)]
            && r.value.listings == s.listings && r.value.attestationUsed == s.attestationUsed
            && r.value.log == s.log + [Deposited(id, tx.sender, token, amount)] && SameSettings(s, r.value)
            && Collected(dep.self, s.tokens, r.value.tokens, token, tx.sender, amount))
  {
    var p := Position(token, amount, tx.sender, beneficiary, 0, Escrowed);
    PullExactly(dep, s.(positions := s.positions[id := p]), token, tx.sender, amount);
  }

  // Who may lock under an offer: anybody when nothing is, else only its maker, in its token, while it is open.
  predicate MayLock(L: Listings, o: Id, sender: Address, token: Address, amount: nat) {
    o in L ==> L[o].maker == sender && L[o].token == token && L[o].open && L[o].total + amount <= MAX_UINT256
  }

  lemma LockListingExactly(dep: Deployment, s: State, tx: Tx, o: Id, token: Address, amount: uint256)
    requires Inv(dep, s) && Sendable(dep, tx)
    ensures var r := Step(dep, s, tx, LockListingCall(o, token, amount));
      && (r.Success? <==>
            && !s.depositsPaused && amount > 0 && token != 0 && MayLock(s.listings, o, tx.sender, token, amount)
            && CanCollect(dep.self, s.tokens, token, tx.sender, amount))
      && (r.Success? ==>
            && SameBut(s.listings, r.value.listings, o) && o in r.value.listings
            && r.value.listings[o] == Listing(tx.sender, token, ListingTotal(s.listings, o) + amount,
                                              ListingBoundPart(s.listings, o), true)
            && r.value.positions == s.positions && r.value.attestationUsed == s.attestationUsed
            && r.value.log == s.log + [ListingLocked(o, tx.sender, token, amount)] && SameSettings(s, r.value)
            && Collected(dep.self, s.tokens, r.value.tokens, token, tx.sender, amount))
  {
    if MayLock(s.listings, o, tx.sender, token, amount) {
      var l := Listing(tx.sender, token, ListingTotal(s.listings, o) + amount, ListingBoundPart(s.listings, o), true);
      PullExactly(dep, s.(listings := s.listings[o := l]), token, tx.sender, amount);
    }
  }

  // Anybody may bind, but never more than is free; the maker pays, the one named is paid, nothing moves yet.
  lemma BindExactly(dep: Deployment, s: State, tx: Tx, id: Id, o: Id, amount: uint256, beneficiary: Address)
    requires forall x :: x in s.listings ==> s.listings[x].bound <= s.listings[x].total
    ensures var r := Step(dep, s, tx, BindListingLockCall(id, o, amount, beneficiary));
      && (r.Success? <==>
            && amount > 0 && beneficiary != 0 && id !in s.positions
            && o in s.listings && s.listings[o].open && amount <= s.listings[o].total - s.listings[o].bound)
      && (r.Success? ==>
            && r.value.positions == s.positions[id := Position(s.listings[o].token, amount, s.listings[o].maker,
                                                               beneficiary, o, Escrowed)]
            && r.value.tokens == s.tokens && r.value.attestationUsed == s.attestationUsed
            && r.value.log == s.log + [ListingBound(o, id, amount)] && SameSettings(s, r.value)
            && SameBut(s.listings, r.value.listings, o) && o in r.value.listings
            && r.value.listings[o] == s.listings[o].(bound := s.listings[o].bound + amount))
  {}

  // The maker, and nobody else, can take an open listing down at any time, and gets exactly what no
  // order holds: the transfer and the arithmetic never stand in the way.
  lemma UnlockListingExactly(dep: Deployment, s: State, tx: Tx, o: Id)
    requires Inv(dep, s)
    ensures var r := Step(dep, s, tx, UnlockListingCall(o));
      && (r.Success? <==> o in s.listings && s.listings[o].maker == tx.sender && s.listings[o].open)
      && (r.Success? ==>
            && OnlyPaid(dep.self, s.tokens, r.value.tokens, s.listings[o].token, tx.sender,
                        s.listings[o].total - s.listings[o].bound)
            && r.value.positions == s.positions && SameBut(s.listings, r.value.listings, o)
            && o in r.value.listings
            && r.value.listings[o] == Listing(tx.sender, s.listings[o].token, s.listings[o].bound, s.listings[o].bound,
                                              false)
            && r.value.attestationUsed == s.attestationUsed && SameSettings(s, r.value)
            && r.value.log == s.log + [ListingUnlocked(o, tx.sender, s.listings[o].token,
                                                       s.listings[o].total - s.listings[o].bound)])
  {
    if o in s.listings && s.listings[o].maker == tx.sender && s.listings[o].open {
      var l := s.listings[o];
      assert ListingOk(dep.self, l, s.tokens);
      var id := UnusedId(s.positions);
      CanPay(dep, s, id, o, l.token);
      if l.total > l.bound {
        PushPaysExactly(dep, s.(listings := s.listings[o := l.(open := false, total := l.bound)]), l.token, l.maker,
                        l.total - l.bound);
      }
      var _ := UnlockListingLands(dep, s, tx, o);
    }
  }

  // ── disputes ──

  // A dispute is accepted exactly from the payer or the beneficiary of an escrowed position. It marks the
  // position and does nothing else.
  lemma RaiseDisputeExactly(dep: Deployment, s: State, tx: Tx, id: Id)
    ensures var r := Step(dep, s, tx, RaiseDisputeCall(id));
      && (r.Success? <==>
            && id in s.positions && s.positions[id].status == Escrowed
            && tx.sender in {s.positions[id].payer, s.positions[id].beneficiary})
      && (r.Success? ==>
            && r.value.positions == s.positions[id := s.positions[id].(status := Disputed)]
            && r.value.tokens == s.tokens && r.value.listings == s.listings
            && r.value.attestationUsed == s.attestationUsed && SameSettings(s, r.value)
            && r.value.log == s.log + [DisputeRaised(id, tx.sender)])
  {}

  // A ruling on one position goes through.
  predicate Rules(dep: Deployment, s: State, tx: Tx, call: Call, id: Id) {
    call.ResolveDisputeCall? && call.att.orderId == id && Step(dep, s, tx, call).Success?
  }

  // While a position is in dispute, releases and refunds of it are refused, and only a ruling moves it.
  lemma DisputeFreezes(dep: Deployment, s: State, tx: Tx, call: Call, id: Id)
    requires Inv(dep, s) && id in s.positions && s.positions[id].status == Disputed
    ensures (call.ReleaseCall? || call.RefundCall?) && call.att.orderId == id ==> Step(dep, s, tx, call).Failure?
    ensures Step(dep, s, tx, call).Success? ==>
              var P := Step(dep, s, tx, call).value.positions;
              id in P && (P[id] != s.positions[id] <==> Rules(dep, s, tx, call, id))
  {
    match call
    case ReleaseCall(att, sigs) => ReleaseExactly(dep, s, tx, att, sigs);
    case RefundCall(att, sigs) => RefundExactly(dep, s, tx, att, sigs);
    case ResolveDisputeCall(att, sigs) => ResolveDisputeExactly(dep, s, tx, att, sigs);
    case _ => if Step(dep, s, tx, call).Success? { OthersLeaveDisputed(dep, s, tx, call, id); }
  }

  lemma OthersLeaveDisputed(dep: Deployment, s: State, tx: Tx, call: Call, id: Id)
    requires id in s.positions && s.positions[id].status == Disputed && Step(dep, s, tx, call).Success?
    requires !call.ReleaseCall? && !call.RefundCall? && !call.ResolveDisputeCall?
    ensures var P := Step(dep, s, tx, call).value.positions; id in P && P[id] == s.positions[id]
  {}

  // No ruling on the position goes through in the run.
  ghost predicate NeverRuled(dep: Deployment, s: State, run: seq<(Tx, Call)>, id: Id) {
    forall i {:trigger run[i]} :: 0 <= i < |run| ==> !Rules(dep, Exec(dep, s, run[..i]), run[i].0, run[i].1, id)
  }

  // So a disputed position stays as it is over any run in which it is not ruled on.
  lemma {:induction false} DisputedUntilRuled(dep: Deployment, s: State, run: seq<(Tx, Call)>, id: Id)
    requires Inv(dep, s) && AllSendable(dep, run) && id in s.positions && s.positions[id].status == Disputed
    requires NeverRuled(dep, s, run, id)
    ensures id in Exec(dep, s, run).positions && Exec(dep, s, run).positions[id] == s.positions[id]
  {
    if run != [] {
      var init, last := run[..|run| - 1], run[|run| - 1];
      forall i | 0 <= i < |init| ensures !Rules(dep, Exec(dep, s, init[..i]), init[i].0, init[i].1, id) {
        assert init[..i] == run[..i] && init[i] == run[i];
      }
      DisputedUntilRuled(dep, s, init, id);
      RunKeeps(dep, s, init);
      assert !Rules(dep, Exec(dep, s, run[..|run| - 1]), last.0, last.1, id);
      DisputeFreezes(dep, Exec(dep, s, init), last.0, last.1, id);
    }
  }

  // ── refusals ──

  // Every error of a call that brings coins in, binds them or takes a listing down says what is wrong.
  lemma MoneyInFaults(dep: Deployment, s: State, tx: Tx, call: Call)
    requires call.DepositCall? || call.LockListingCall? || call.BindListingLockCall?
    requires Step(dep, s, tx, call).Failure?
    ensures match Step(dep, s, tx, call).error
      case DepositsArePaused => s.depositsPaused && !call.BindListingLockCall?
      case ZeroAmount => call.amount == 0
      case ZeroAddress => if call.BindListingLockCall? then call.beneficiary == 0
                          else call.token == 0 || (call.DepositCall? && call.beneficiary == 0)
      case OrderExists => !call.LockListingCall? && call.orderId in s.positions
      case ListingNotOpen =>
        if call.LockListingCall? then !MayLock(s.listings, call.offerId, tx.sender, call.token, 0)
        else call.BindListingLockCall? && (call.offerId !in s.listings || !s.listings[call.offerId].open)
      case ListingInsufficient =>
        && call.BindListingLockCall? && call.offerId in s.listings
        && s.listings[call.offerId].total - s.listings[call.offerId].bound < call.amount
      case TransferFailed => !call.BindListingLockCall?
      case Panic => !call.DepositCall? || call.token !in s.tokens
      case _ => false
  {}

  lemma UnlockAndDisputeFaults(dep: Deployment, s: State, tx: Tx, o: Id, id: Id)
    ensures Step(dep, s, tx, UnlockListingCall(o)) == Failure(ListingNotOpen) <==>
            o !in s.listings || s.listings[o].maker != tx.sender || !s.listings[o].open
    ensures var r := Step(dep, s, tx, RaiseDisputeCall(id));
      r.Failure? ==>
        match r.error
        case NoPosition => id !in s.positions
        case NotEscrowed => id in s.positions && s.positions[id].status != Escrowed
        case NotParty => id in s.positions && tx.sender !in {s.positions[id].payer, s.positions[id].beneficiary}
        case _ => false
  {}

  lemma ConsumeFaults(dep: Deployment, s: State, tx: Tx, att: Attestation, sigs: seq<Signature>)
    ensures var r := Consume(dep, s, tx, att, sigs);
      r.Failure? ==>
        || r.error == AttestationReplayed || r.error == BadSignature || r.error == SignersUnsorted
        || (r.error == AttestationExpired && tx.now > att.deadline)
        || (r.error == NotEnoughSigners && |sigs| < s.threshold)
  {
    QuorumFaultsAre(RecoverAll(dep, HashAttestation(dep, s, tx, att), sigs), 0, s.isSigner);
  }

  lemma PayFaults(dep: Deployment, s: State, id: Id, score: nat)
    requires id in s.positions
    ensures PayOut(dep, s, id, score).Failure? ==> PayOut(dep, s, id, score).error == TransferFailed
    ensures DoRefund(dep, s, id).Failure? ==> DoRefund(dep, s, id).error in {TransferFailed, Panic}
  {}

  // And so does every error of a signed call.
  lemma ExitFaults(dep: Deployment, s: State, tx: Tx, call: Call)
    requires call.ReleaseCall? || call.RefundCall? || call.ResolveDisputeCall?
    requires Step(dep, s, tx, call).Failure?
    ensures var id, due := call.att.orderId, if call.ResolveDisputeCall? then Disputed else Escrowed;
      match Step(dep, s, tx, call).error
      case NoPosition => id !in s.positions
      case NotEscrowed => id in s.positions && s.positions[id].status != due && !call.ResolveDisputeCall?
      case NotDisputed => id in s.positions && s.positions[id].status != due && call.ResolveDisputeCall?
      case WrongVerdict => call.att.verdict != (if call.ReleaseCall? then ToRelease else ToRefund)
                           && (call.ResolveDisputeCall? ==> call.att.verdict == Hold)
      case ScoreTooLow => call.att.verdict == ToRelease && call.att.score < s.minScore && !call.RefundCall?
      case AttestationExpired => tx.now > call.att.deadline
      case NotEnoughSigners => |call.sigs| < s.threshold
      case _ => id in s.positions
  {
    var att, r := call.att, Consume(dep, s, tx, call.att, call.sigs);
    ConsumeFaults(dep, s, tx, att, call.sigs);
    if r.Success? && att.orderId in r.value.positions {
      PayFaults(dep, r.value, att.orderId, att.score);
    }
  }

  // ── governance ──

  // Only the owner governs, and what they set is what is then in force.
  lemma GovernanceExactly(dep: Deployment, s: State, tx: Tx, paused: bool, dst: Address)
    ensures var r := Step(dep, s, tx, SetDepositsPausedCall(paused));
      r == if tx.sender == s.owner then Success(s.(depositsPaused := paused)) else Failure(NotOwner)
    ensures var r := Step(dep, s, tx, TransferOwnershipCall(dst));
      && (r.Success? <==> tx.sender == s.owner && dst != 0)
      && (r.Success? ==> r.value == s.(owner := dst))
  {}

  // Deployment is accepted for sound settings; whoever deploys owns the contract, which starts open and empty.
  lemma DeployExactly(dep: Deployment, tx: Tx, signers: seq<Address>, threshold: nat, minScore: nat, T: Ledgers)
    ensures var r := Deploy(dep, tx, signers, threshold, minScore, T);
      && (r.Success? <==> SignersOk(Addresses(signers), signers, threshold, minScore))
      && (r.Success? ==>
            var s := r.value;
            && s.owner == tx.sender && s.signerList == signers && s.isSigner == Addresses(signers)
            && s.threshold == threshold && s.minScore == minScore && !s.depositsPaused
            && s.positions == map[] && s.listings == map[] && s.attestationUsed == {} && s.log == []
            && s.tokens == T && s.cachedDomain == Domain(tx.chainId, dep.self) && s.cachedChainId == tx.chainId)
  {
    SettingsAcceptedExactly(signers, threshold, minScore);
  }

  predicate Governs(call: Call) {
    call.SetSignersCall? || call.SetDepositsPausedCall? || call.TransferOwnershipCall?
  }

  // After an ownership transfer the new owner governs and nobody else does.
  lemma OnlyNewOwnerGoverns(dep: Deployment, s: State, tx: Tx, dst: Address, tx': Tx, call: Call)
    requires Step(dep, s, tx, TransferOwnershipCall(dst)).Success? && Governs(call)
    ensures var s' := Step(dep, s, tx, TransferOwnershipCall(dst)).value;
      && (tx'.sender != dst ==> Step(dep, s', tx', call) == Failure(NotOwner))
      && (tx'.sender == dst && call.SetDepositsPausedCall? ==> Step(dep, s', tx', call).Success?)
  {}

  // ── the only ways out ──

  // The maker takes down an open listing.
  predicate ByMaker(s: State, tx: Tx, o: Id) {
    o in s.listings && s.listings[o].maker == tx.sender && s.listings[o].open
  }

  // A release, refund or ruling signed in time by as many distinct listed signers as are needed.
  ghost predicate SignedExit(dep: Deployment, s: State, tx: Tx, att: Attestation, sigs: seq<Signature>) {
    && Attested(dep, s, tx, att, sigs)
    && (exists who :: AllSignedBy(dep, Digest(Domain(tx.chainId, dep.self), att), sigs, who)
                      && Addresses(who) <= s.isSigner && |Addresses(who)| >= s.threshold)
    && att.orderId in s.positions && Live(s.positions[att.orderId])
  }

  // No transaction of anybody, the owner included, lowers what the contract has of any token, except the
  // taking down of a listing by its maker, by exactly its free part, and a signed release, refund or
  // ruling, by exactly the amount of its position.
  lemma MoneyLeavesOnly(dep: Deployment, s: State, tx: Tx, call: Call, t: Address)
    requires Inv(dep, s) && Sendable(dep, tx) && Step(dep, s, tx, call).Success?
    requires Balance(dep.self, Step(dep, s, tx, call).value.tokens, t) < Balance(dep.self, s.tokens, t)
    ensures var gone := Balance(dep.self, s.tokens, t) - Balance(dep.self, Step(dep, s, tx, call).value.tokens, t);
      || (&& call.UnlockListingCall? && ByMaker(s, tx, call.offerId)
          && t == s.listings[call.offerId].token
          && gone == s.listings[call.offerId].total - s.listings[call.offerId].bound)
      || (&& (call.ReleaseCall? || call.RefundCall? || call.ResolveDisputeCall?)
          && SignedExit(dep, s, tx, call.att, call.sigs)
          && t == s.positions[call.att.orderId].token && gone == s.positions[call.att.orderId].amount)
  {
    if call.UnlockListingCall? {
      UnlockListingExactly(dep, s, tx, call.offerId);
    } else if call.ReleaseCall? || call.RefundCall? || call.ResolveDisputeCall? {
      AttestedExit(dep, s, tx, call, t);
    } else {
      NothingElseLeaves(dep, s, tx, call, t);
    }
  }

  lemma AttestedExit(dep: Deployment, s: State, tx: Tx, call: Call, t: Address)
    requires Inv(dep, s) && Step(dep, s, tx, call).Success?
    requires call.ReleaseCall? || call.RefundCall? || call.ResolveDisputeCall?
    requires Balance(dep.self, Step(dep, s, tx, call).value.tokens, t) < Balance(dep.self, s.tokens, t)
    ensures SignedExit(dep, s, tx, call.att, call.sigs)
    ensures var p := s.positions[call.att.orderId];
      && t == p.token
      && Balance(dep.self, s.tokens, t) - Balance(dep.self, Step(dep, s, tx, call).value.tokens, t) == p.amount
  {
    match call {
      case ReleaseCall(att, sigs) => ReleaseExactly(dep, s, tx, att, sigs);
      case RefundCall(att, sigs) => RefundExactly(dep, s, tx, att, sigs);
      case ResolveDisputeCall(att, sigs) => ResolveDisputeExactly(dep, s, tx, att, sigs);
    }
    var d := Digest(Domain(tx.chainId, dep.self), call.att);
    var who :| AllSignedBy(dep, d, call.sigs, who) && Quorum(who, s.isSigner, s.threshold);
    QuorumIsThatManySigners(who, s.isSigner, s.threshold);
  }

  lemma NothingElseLeaves(dep: Deployment, s: State, tx: Tx, call: Call, t: Address)
    requires Inv(dep, s) && Sendable(dep, tx) && Step(dep, s, tx, call).Success?
    requires !call.UnlockListingCall? && !call.ReleaseCall? && !call.RefundCall? && !call.ResolveDisputeCall?
    ensures Balance(dep.self, Step(dep, s, tx, call).value.tokens, t) >= Balance(dep.self, s.tokens, t)
  {
    match call
    case DepositCall(id, token, amount, beneficiary) => DepositExactly(dep, s, tx, id, token, amount, beneficiary);
    case LockListingCall(o, token, amount) => LockListingExactly(dep, s, tx, o, token, amount);
    case TokenTransferCall(_, _, _) => OutsidersOnlyAdd(dep, s, tx, call, t);
    case TokenTransferFromCall(_, _, _, _) => OutsidersOnlyAdd(dep, s, tx, call, t);
    case TokenApproveCall(_, _, _) => OutsidersOnlyAdd(dep, s, tx, call, t);
    case TokenMintCall(_, _, _) => OutsidersOnlyAdd(dep, s, tx, call, t);
    case _ =>
  }

  lemma OutsidersOnlyAdd(dep: Deployment, s: State, tx: Tx, call: Call, t: Address)
    requires Inv(dep, s) && Sendable(dep, tx) && Step(dep, s, tx, call).Success?
    requires call.TokenTransferCall? || call.TokenTransferFromCall? || call.TokenApproveCall? || call.TokenMintCall?
    ensures Balance(dep.self, Step(dep, s, tx, call).value.tokens, t) >= Balance(dep.self, s.tokens, t)
  {
    if call.token in s.tokens {
      assert LedgerOk(dep.self, s.tokens[call.token]);
      var after := LedgerAfter(s.tokens[call.token], tx.sender, call);
      assert Step(dep, s, tx, call) == TokenCall(dep, s, call.token, after);
      OutsiderLeavesLedgerOk(dep, s.tokens[call.token], tx, call, after);
    }
  }

  // ── what undoes what ──

  // Binding a slice and refunding it while the listing is open puts the listing back as it was, and
  // moves no tokens at all.
  lemma BindThenRefundRestores(dep: Deployment, s: State, id: Id, o: Id, amount: uint256, beneficiary: Address,
                               tx: Tx, att: Attestation, sigs: seq<Signature>)
    requires Inv(dep, s) && o != 0 && BindListingLock(s, id, o, amount, beneficiary).Success?
    requires var bound := BindListingLock(s, id, o, amount, beneficiary).value;
             att.orderId == id && Refund(dep, bound, tx, att, sigs).Success?
    ensures var back := Refund(dep, BindListingLock(s, id, o, amount, beneficiary).value, tx, att, sigs).value;
      back.listings == s.listings && back.tokens == s.tokens
  {}

  // Taking down a listing of which nothing was bound gives back what was collected for it.
  lemma UnlockGivesBack(dep: Deployment, T: Ledgers, locked: State, tx: Tx, o: Id, token: Address, amount: uint256)
    requires Inv(dep, locked) && tx.sender != dep.self
    requires o in locked.listings && locked.listings[o] == Listing(tx.sender, token, amount, 0, true)
    requires Collected(dep.self, T, locked.tokens, token, tx.sender, amount)
    ensures var r := UnlockListing(dep, locked, tx, o);
      && r.Success? && r.value.tokens.Keys == T.Keys
      && forall t, a :: t in T ==> BalanceOf(r.value.tokens[t], a) == BalanceOf(T[t], a)
  {
    UnlockListingExactly(dep, locked, tx, o);
  }

  // Locking a new listing and taking it down again leaves every account, the contract's too, with what it had.
  lemma LockThenUnlockRestores(dep: Deployment, s: State, tx: Tx, tx': Tx, o: Id, token: Address, amount: uint256)
    requires Inv(dep, s) && Sendable(dep, tx) && o !in s.listings && tx'.sender == tx.sender
    requires LockListing(dep, s, tx, o, token, amount).Success?
    ensures var locked := LockListing(dep, s, tx, o, token, amount).value;
      && UnlockListing(dep, locked, tx', o).Success?
      && var back := UnlockListing(dep, locked, tx', o).value;
         && back.tokens.Keys == s.tokens.Keys
         && forall t, a :: t in s.tokens ==> BalanceOf(back.tokens[t], a) == BalanceOf(s.tokens[t], a)
  {
    var call := LockListingCall(o, token, amount);
    StepKeeps(dep, s, tx, call);
    LockListingExactly(dep, s, tx, o, token, amount);
    var locked := LockListing(dep, s, tx, o, token, amount).value;
    UnlockGivesBack(dep, s.tokens, locked, tx', o, token, amount);
  }
}
