// The contract itself: storage that each call updates in place, checks before effects before
// transfers as in the source, and undone by hand where the chain would revert it.
module AtaraEscrow {
  import opened Results
  import opened Erc20
  import opened EscrowModel
  import opened EscrowBooks
  import opened EscrowSteps
  import opened EscrowTheorems

  class Escrow {
    const dep: Deployment

    var owner: Address
    var isSigner: set<Address>
    var signerList: seq<Address>
    var threshold: nat
    var minScore: nat
    var depositsPaused: bool
    var positions: map<Id, Position>
    var listings: map<Id, Listing>
    var attestationUsed: set<Digest>
    var cachedDomain: Domain
    var cachedChainId: nat
    // The storage of the token contracts it calls.
    var tokens: map<Address, Ledger>
    var log: seq<Event>

    ghost function Now(): State
      reads this
    {
      State(owner, isSigner, signerList, threshold, minScore, depositsPaused, positions, listings,
            attestationUsed, cachedDomain, cachedChainId, tokens, log)
    }

    // The lookup table is the list. It is all that replacing the signers relies on.
    ghost predicate Listed()
      reads this
    {
      isSigner == Addresses(signerList)
    }

    // Everything that holds of the contract between transactions.
    ghost predicate Valid()
      reads this
    {
      Inv(dep, Now())
    }

    // The call did what `outcome` says: it went through, or it reverted and left no trace.
    twostate predicate Did(outcome: Outcome, new reverted: Option<Error>)
      reads this
    {
      match outcome
      case Success(after) => reverted == None && Now() == after
      case Failure(e) => reverted == Some(e) && Now() == old(Now())
    }

    constructor (dep: Deployment, tx: Tx, signers: seq<Address>, threshold: nat, minScore: nat,
                 tokens: map<Address, Ledger>)
      requires Deploy(dep, tx, signers, threshold, minScore, tokens).Success?
      ensures this.dep == dep && Listed()
      ensures FreshTokens(dep.self, tokens) ==> Valid()
      ensures Now() == Deploy(dep, tx, signers, threshold, minScore, tokens).value
    {
      this.dep := dep;
      owner := tx.sender;
      isSigner, signerList, this.threshold, this.minScore := {}, [], 0, 0;
      depositsPaused, positions, listings, attestationUsed := false, map[], map[], {};
      cachedChainId := tx.chainId;
      cachedDomain := Domain(tx.chainId, dep.self);
      this.tokens, log := tokens, [];
      new;
      var refused := ReplaceSigners(signers, threshold, minScore);
      if FreshTokens(dep.self, tokens) {
        DeployEstablishes(dep, tx, signers, threshold, minScore, tokens);
      }
    }

    // ── governance ──

    // Empties the old list, then fills the new one, refusing zero and repeated addresses.
    method ReplaceSigners(signers: seq<Address>, newThreshold: nat, newMinScore: nat) returns (reverted: Option<Error>)
      requires Listed()
      modifies this`isSigner, this`signerList, this`threshold, this`minScore
      ensures Listed()
      ensures match SettingsFault(signers, newThreshold, newMinScore)
        case Some(e) => reverted == Some(e) && Now() == old(Now())
        case None => reverted == None && Now() == old(Now()).(isSigner := Addresses(signers), signerList := signers,
                                                              threshold := newThreshold, minScore := newMinScore)
    {
      if newThreshold == 0 || newThreshold > |signers| { return Some(BadThreshold); }
      if newMinScore > 100 { return Some(ScoreTooLow); }
      var oldSigners, oldList := isSigner, signerList;
      for i := 0 to |signerList|
        invariant signerList == oldList && threshold == old(threshold) && minScore == old(minScore)
        invariant forall a :: a in isSigner ==> a in oldList[i..]
      {
        isSigner := isSigner - {signerList[i]};
      }
      assert isSigner == {};
      signerList := [];
      for i := 0 to |signers|
        invariant signerList == signers[..i] && threshold == old(threshold) && minScore == old(minScore)
        invariant isSigner == Addresses(signers[..i])
        invariant ListFault(signers, {}) == ListFault(signers[i..], isSigner)
      {
        var s := signers[i];
        if s == 0 || s in isSigner {
          isSigner, signerList := oldSigners, oldList;
          return Some(if s == 0 then ZeroAddress else BadSignature);
        }
        assert signers[..i + 1] == signers[..i] + [s];
        isSigner := isSigner + {s};
        signerList := signerList + [s];
      }
      assert signers[..|signers|] == signers;
      threshold, minScore := newThreshold, newMinScore;
      return None;
    }

    method SetSigners(tx: Tx, signers: seq<Address>, newThreshold: nat, newMinScore: nat)
      returns (reverted: Option<Error>)
      requires Listed()
      modifies this
      ensures Listed()
      ensures Did(EscrowModel.SetSigners(old(Now()), tx, signers, newThreshold, newMinScore), reverted)
    {
      if tx.sender != owner { return Some(NotOwner); }
      reverted := ReplaceSigners(signers, newThreshold, newMinScore);
    }

    method SetDepositsPaused(tx: Tx, paused: bool) returns (reverted: Option<Error>)
      requires Listed()
      modifies this
      ensures Listed()
      ensures Did(EscrowModel.SetDepositsPaused(old(Now()), tx, paused), reverted)
    {
      if tx.sender != owner { return Some(NotOwner); }
      depositsPaused := paused;
      return None;
    }

    method TransferOwnership(tx: Tx, dst: Address) returns (reverted: Option<Error>)
      requires Listed()
      modifies this
      ensures Listed()
      ensures Did(EscrowModel.TransferOwnership(old(Now()), tx, dst), reverted)
    {
      if tx.sender != owner { return Some(NotOwner); }
      if dst == 0 { return Some(ZeroAddress); }
      owner := dst;
      return None;
    }

    // ── token movements ──

    method PullFrom(token: Address, src: Address, amount: uint256) returns (reverted: Option<Error>)
      modifies this`tokens
      ensures Did(Pull(dep, old(Now()), token, src, amount), reverted)
    {
      if token !in tokens { return Some(Panic); }
      var before := BalanceOf(tokens[token], dep.self);
      match TransferFrom(tokens[token], dep.self, src, dep.self, amount)
      case Failure(_) => return Some(TransferFailed);
      case Success(l) =>
        if BalanceOf(l, dep.self) - before != amount { return Some(TransferFailed); }
        tokens := tokens[token := l];
        return None;
    }

    method PushTo(token: Address, dst: Address, amount: uint256) returns (reverted: Option<Error>)
      modifies this`tokens
      ensures Did(Push(dep, old(Now()), token, dst, amount), reverted)
    {
      if token !in tokens { return None; }
      match Transfer(tokens[token], dep.self, dst, amount)
      case Failure(_) => return Some(TransferFailed);
      case Success(l) =>
        tokens := tokens[token := l];
        return None;
    }

    // ── money in ──

    method Deposit(tx: Tx, orderId: Id, token: Address, amount: uint256, beneficiary: Address)
      returns (reverted: Option<Error>)
      requires Listed()
      modifies this
      ensures Listed()
      ensures Did(EscrowModel.Deposit(dep, old(Now()), tx, orderId, token, amount, beneficiary), reverted)
    {
      if depositsPaused { return Some(DepositsArePaused); }
      if amount == 0 { return Some(ZeroAmount); }
      if token == 0 || beneficiary == 0 { return Some(ZeroAddress); }
      if orderId in positions { return Some(OrderExists); }
      var before := positions;
      positions := positions[orderId := Position(token, amount, tx.sender, beneficiary, 0, Escrowed)];
      reverted := PullFrom(token, tx.sender, amount);
      if reverted.Some? {
        positions := before;
        return;
      }
      log := log + [Deposited(orderId, tx.sender, token, amount)];
    }

    method LockListing(tx: Tx, offerId: Id, token: Address, amount: uint256) returns (reverted: Option<Error>)
      requires Listed()
      modifies this
      ensures Listed()
      ensures Did(EscrowModel.LockListing(dep, old(Now()), tx, offerId, token, amount), reverted)
    {
      if depositsPaused { return Some(DepositsArePaused); }
      if amount == 0 { return Some(ZeroAmount); }
      if token == 0 { return Some(ZeroAddress); }
      var before := listings;
      if offerId !in listings {
        listings := listings[offerId := Listing(tx.sender, token, amount, 0, true)];
      } else {
        var l := listings[offerId];
        if l.maker != tx.sender || l.token != token || !l.open { return Some(ListingNotOpen); }
        if l.total + amount > MAX_UINT256 { return Some(Panic); }
        listings := listings[offerId := l.(total := l.total + amount)];
      }
      reverted := PullFrom(token, tx.sender, amount);
      if reverted.Some? {
        listings := before;
        return;
      }
      log := log + [ListingLocked(offerId, tx.sender, token, amount)];
    }

    method UnlockListing(tx: Tx, offerId: Id) returns (reverted: Option<Error>)
      requires Listed()
      modifies this
      ensures Listed()
      ensures Did(EscrowModel.UnlockListing(dep, old(Now()), tx, offerId), reverted)
    {
      if offerId !in listings { return Some(ListingNotOpen); }
      var l := listings[offerId];
      if l.maker != tx.sender || !l.open { return Some(ListingNotOpen); }
      if l.bound > l.total { return Some(Panic); }
      var free := l.total - l.bound;
      var before := listings;
      listings := listings[offerId := l.(open := false, total := l.bound)];
      if free > 0 {
        reverted := PushTo(l.token, l.maker, free);
        if reverted.Some? {
          listings := before;
          return;
        }
      }
      log := log + [ListingUnlocked(offerId, l.maker, l.token, free)];
      return None;
    }

    method BindListingLock(tx: Tx, orderId: Id, offerId: Id, amount: uint256, beneficiary: Address)
      returns (reverted: Option<Error>)
      requires Listed()
      modifies this
      ensures Listed()
      ensures Did(EscrowModel.BindListingLock(old(Now()), orderId, offerId, amount, beneficiary), reverted)
    {
      if amount == 0 { return Some(ZeroAmount); }
      if beneficiary == 0 { return Some(ZeroAddress); }
      if orderId in positions { return Some(OrderExists); }
      if offerId !in listings || !listings[offerId].open { return Some(ListingNotOpen); }
      var l := listings[offerId];
      if l.bound > l.total { return Some(Panic); }
      if l.total - l.bound < amount { return Some(ListingInsufficient); }
      listings := listings[offerId := l.(bound := l.bound + amount)];
      positions := positions[orderId := Position(l.token, amount, l.maker, beneficiary, offerId, Escrowed)];
      log := log + [ListingBound(offerId, orderId, amount)];
      return None;
    }

    method RaiseDispute(tx: Tx, orderId: Id) returns (reverted: Option<Error>)
      requires Listed()
      modifies this
      ensures Listed()
      ensures Did(EscrowModel.RaiseDispute(old(Now()), tx, orderId), reverted)
    {
      if orderId !in positions { return Some(NoPosition); }
      var p := positions[orderId];
      if p.status != Escrowed { return Some(NotEscrowed); }
      if tx.sender != p.payer && tx.sender != p.beneficiary { return Some(NotParty); }
      positions := positions[orderId := p.(status := Disputed)];
      log := log + [DisputeRaised(orderId, tx.sender)];
      return None;
    }

    // ── attestations ──

    // Marks the digest used, then counts signatures one by one; each must recover a listed
    // address above the last one.
    method ConsumeAttestation(tx: Tx, att: Attestation, sigs: seq<Signature>) returns (reverted: Option<Error>)
      modifies this`attestationUsed
      ensures Did(Consume(dep, old(Now()), tx, att, sigs), reverted)
    {
      if tx.now > att.deadline { return Some(AttestationExpired); }
      var domain := if tx.chainId == cachedChainId then cachedDomain else Domain(tx.chainId, dep.self);
      var d := Digest(domain, att);
      if d in attestationUsed { return Some(AttestationReplayed); }
      var before := attestationUsed;
      attestationUsed := attestationUsed + {d};
      if |sigs| < threshold {
        attestationUsed := before;
        return Some(NotEnoughSigners);
      }
      ghost var all := RecoverAll(dep, d, sigs);
      var last: Address, counted := 0, 0;
      for i := 0 to |sigs|
        invariant counted == i
        invariant QuorumFault(all, 0, isSigner) == QuorumFault(all[i..], last, isSigner)
      {
        var rec := Recover(dep, d, sigs[i]);
        if rec == 0 || rec <= last || rec !in isSigner {
          attestationUsed := before;
          return Some(if rec == 0 then BadSignature else if rec <= last then SignersUnsorted else BadSignature);
        }
        last := rec;
        counted := counted + 1;
      }
      // The source compares the count with the threshold once more; it has counted every signature.
      assert counted >= threshold;
      return None;
    }

    method PayBeneficiary(orderId: Id, score: nat) returns (reverted: Option<Error>)
      requires orderId in positions
      modifies this`positions, this`tokens, this`log
      ensures Did(PayOut(dep, old(Now()), orderId, score), reverted)
    {
      var p := positions[orderId];
      var before := positions;
      positions := positions[orderId := p.(status := Released)];
      reverted := PushTo(p.token, p.beneficiary, p.amount);
      if reverted.Some? {
        positions := before;
        return;
      }
      log := log + [ReleasedTo(orderId, p.beneficiary, p.token, p.amount, score)];
    }

    // Takes the amount of a position off what its listing has bound, and off the total of a listing that was
    // taken down. Says whether the listing was open, and so keeps the tokens.
    method FreeSlice(p: Position) returns (reverted: Option<Error>, wasOpen: bool)
      requires p.offerId != 0
      modifies this`listings
      ensures reverted == None ==> p.offerId in old(listings) && p.amount <= old(listings)[p.offerId].bound
      ensures reverted == None ==> wasOpen == old(listings)[p.offerId].open
      ensures reverted == None ==> wasOpen || p.amount <= old(listings)[p.offerId].total
      ensures reverted == None ==> listings == ListingsAfterRefund(old(listings), p)
      ensures reverted.Some? ==> reverted == Some(Panic) && listings == old(listings)
      ensures reverted.Some? ==>
        || p.offerId !in listings || listings[p.offerId].bound < p.amount
        || (!listings[p.offerId].open && listings[p.offerId].total < p.amount)
    {
      if p.offerId !in listings || listings[p.offerId].bound < p.amount { return Some(Panic), false; }
      var l := listings[p.offerId];
      if l.open {
        listings := listings[p.offerId := l.(bound := l.bound - p.amount)];
        return None, true;
      }
      if l.total < p.amount { return Some(Panic), false; }
      listings := listings[p.offerId := l.(total := l.total - p.amount, bound := l.bound - p.amount)];
      return None, false;
    }

    method RefundPosition(orderId: Id) returns (reverted: Option<Error>)
      requires orderId in positions
      modifies this`positions, this`listings, this`tokens, this`log
      ensures Did(DoRefund(dep, old(Now()), orderId), reverted)
    {
      var p := positions[orderId];
      var beforePositions, beforeListings := positions, listings;
      positions := positions[orderId := p.(status := Refunded)];
      if p.offerId != 0 {
        var wasOpen: bool;
        reverted, wasOpen := FreeSlice(p);
        if reverted.Some? {
          positions := beforePositions;
          return;
        }
        if wasOpen {
          log := log + [RefundedTo(orderId, p.offerId, dep.self, p.token, p.amount)];
          return None;
        }
      }
      reverted := PushTo(p.token, p.payer, p.amount);
      if reverted.Some? {
        positions, listings := beforePositions, beforeListings;
        return;
      }
      log := log + [RefundedTo(orderId, p.offerId, p.payer, p.token, p.amount)];
    }

    method Release(tx: Tx, att: Attestation, sigs: seq<Signature>) returns (reverted: Option<Error>)
      requires Listed()
      modifies this
      ensures Listed()
      ensures Did(EscrowModel.Release(dep, old(Now()), tx, att, sigs), reverted)
    {
      if att.orderId !in positions { return Some(NoPosition); }
      if positions[att.orderId].status != Escrowed { return Some(NotEscrowed); }
      if att.verdict != ToRelease { return Some(WrongVerdict); }
      if att.score < minScore { return Some(ScoreTooLow); }
      var before := attestationUsed;
      reverted := ConsumeAttestation(tx, att, sigs);
      if reverted.Some? { return; }
      reverted := PayBeneficiary(att.orderId, att.score);
      if reverted.Some? {
        attestationUsed := before;
      }
    }

    method Refund(tx: Tx, att: Attestation, sigs: seq<Signature>) returns (reverted: Option<Error>)
      requires Listed()
      modifies this
      ensures Listed()
      ensures Did(EscrowModel.Refund(dep, old(Now()), tx, att, sigs), reverted)
    {
      if att.orderId !in positions { return Some(NoPosition); }
      if positions[att.orderId].status != Escrowed { return Some(NotEscrowed); }
      if att.verdict != ToRefund { return Some(WrongVerdict); }
      var before := attestationUsed;
      reverted := ConsumeAttestation(tx, att, sigs);
      if reverted.Some? { return; }
      reverted := RefundPosition(att.orderId);
      if reverted.Some? {
        attestationUsed := before;
      }
    }

    method ResolveDispute(tx: Tx, att: Attestation, sigs: seq<Signature>) returns (reverted: Option<Error>)
      requires Listed()
      modifies this
      ensures Listed()
      ensures Did(EscrowModel.ResolveDispute(dep, old(Now()), tx, att, sigs), reverted)
    {
      if att.orderId !in positions { return Some(NoPosition); }
      if positions[att.orderId].status != Disputed { return Some(NotDisputed); }
      var before := attestationUsed;
      reverted := ConsumeAttestation(tx, att, sigs);
      if reverted.Some? { return; }
      match att.verdict {
        case ToRelease =>
          if att.score < minScore {
            reverted := Some(ScoreTooLow);
          } else {
            reverted := PayBeneficiary(att.orderId, att.score);
          }
        case ToRefund =>
          reverted := RefundPosition(att.orderId);
        case Hold =>
          reverted := Some(WrongVerdict);
      }
      if reverted.Some? {
        attestationUsed := before;
      }
    }

    // One transaction sent to the contract. Whatever it asks for, it goes through or leaves no trace, and
    // between transactions the books balance and every token covers what is owed in it.
    method Transact(tx: Tx, call: Call) returns (reverted: Option<Error>)
      requires Valid() && Sendable(dep, tx)
      requires !call.TokenTransferCall? && !call.TokenTransferFromCall? && !call.TokenApproveCall?
               && !call.TokenMintCall?
      modifies this
      ensures Valid() && Did(Step(dep, old(Now()), tx, call), reverted)
      ensures forall t :: Balance(dep.self, tokens, t) >= Owed(positions, listings, t)
    {
      match call {
        case SetSignersCall(signers, newThreshold, newMinScore) =>
          reverted := SetSigners(tx, signers, newThreshold, newMinScore);
        case SetDepositsPausedCall(paused) => reverted := SetDepositsPaused(tx, paused);
        case TransferOwnershipCall(dst) => reverted := TransferOwnership(tx, dst);
        case DepositCall(id, token, amount, beneficiary) => reverted := Deposit(tx, id, token, amount, beneficiary);
        case LockListingCall(o, token, amount) => reverted := LockListing(tx, o, token, amount);
        case UnlockListingCall(o) => reverted := UnlockListing(tx, o);
        case BindListingLockCall(id, o, amount, beneficiary) =>
          reverted := BindListingLock(tx, id, o, amount, beneficiary);
        case RaiseDisputeCall(id) => reverted := RaiseDispute(tx, id);
        case ReleaseCall(att, sigs) => reverted := Release(tx, att, sigs);
        case RefundCall(att, sigs) => reverted := Refund(tx, att, sigs);
        case ResolveDisputeCall(att, sigs) => reverted := ResolveDispute(tx, att, sigs);
      }
      if reverted == None {
        StepKeeps(dep, old(Now()), tx, call);
      }
      forall t ensures Balance(dep.self, tokens, t) >= Owed(positions, listings, t) {
        BalanceCovers(dep.self, positions, listings, tokens, log, t);
      }
    }
  }
}
