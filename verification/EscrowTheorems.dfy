// What holds of AtaraEscrow in every state that any run of transactions can reach.
module EscrowTheorems {
  import opened Results
  import opened Sums
  import opened Erc20
  import opened EscrowModel
  import opened EscrowQuorum
  import opened EscrowBooks
  import opened EscrowSteps

  // The token contracts as deployment finds them. Tokens sent to the address before that are no
  // different from tokens sent right after it, so its balances start at zero.
  ghost predicate FreshTokens(self: Address, T: Ledgers) {
    TokensOk(self, T) && forall t :: Balance(self, T, t) == 0
  }

  predicate AllSendable(dep: Deployment, run: seq<(Tx, Call)>) {
    forall i :: 0 <= i < |run| ==> Sendable(dep, run[i].0)
  }

  lemma DeployEstablishes(dep: Deployment, tx: Tx, signers: seq<Address>, threshold: nat, minScore: nat, T: Ledgers)
    requires FreshTokens(dep.self, T) && Deploy(dep, tx, signers, threshold, minScore, T).Success?
    ensures Inv(dep, Deploy(dep, tx, signers, threshold, minScore, T).value)
  {
    SettingsAcceptedExactly(signers, threshold, minScore);
    var s := Deploy(dep, tx, signers, threshold, minScore, T).value;
    forall t ensures TokenBooks(dep.self, s.positions, s.listings, T, s.log, t) {
      assert Balance(dep.self, T, t) == 0;
      assert s.positions.Keys == {} && s.listings.Keys == {};
    }
    forall o | o != 0 ensures ListingBooks(dep.self, s.positions, s.listings, s.log, o) {
      assert s.positions.Keys == {};
    }
  }

  lemma {:induction false} RunKeeps(dep: Deployment, s: State, run: seq<(Tx, Call)>)
    requires Inv(dep, s) && AllSendable(dep, run)
    ensures Inv(dep, Exec(dep, s, run))
  {
    if run != [] {
      var init := run[..|run| - 1];
      RunKeeps(dep, s, init);
      var before := Exec(dep, s, init);
      var (tx, call) := run[|run| - 1];
      if Step(dep, before, tx, call).Success? {
        StepKeeps(dep, before, tx, call);
      }
    }
  }

  // A state that some run of transactions leads to.
  ghost predicate Reachable(dep: Deployment, s: State) {
    exists tx, signers, threshold, minScore, T, run :: ReachedBy(dep, s, tx, signers, threshold, minScore, T, run)
  }

  ghost predicate ReachedBy(dep: Deployment, s: State, tx: Tx, signers: seq<Address>, threshold: nat, minScore: nat,
                            T: Ledgers, run: seq<(Tx, Call)>) {
    && FreshTokens(dep.self, T) && AllSendable(dep, run)
    && Deploy(dep, tx, signers, threshold, minScore, T).Success?
    && s == Exec(dep, Deploy(dep, tx, signers, threshold, minScore, T).value, run)
  }

  lemma ReachableKeeps(dep: Deployment, s: State)
    requires Reachable(dep, s)
    ensures Inv(dep, s)
  {
    var tx, signers, threshold, minScore, T, run :| ReachedBy(dep, s, tx, signers, threshold, minScore, T, run);
    DeployEstablishes(dep, tx, signers, threshold, minScore, T);
    RunKeeps(dep, Deploy(dep, tx, signers, threshold, minScore, T).value, run);
  }

  // ── solvency and conservation ──

  // In every reachable state and for every token the contract has what it owes; the excess is
  // exactly what outsiders sent it and what was released to itself; and everything that came in
  // is accounted for by what went out and what is still owed.
  lemma SolventInEveryRun(dep: Deployment, s: State, t: Address)
    requires Reachable(dep, s)
    ensures Balance(dep.self, s.tokens, t) >= Owed(s.positions, s.listings, t)
    ensures Balance(dep.self, s.tokens, t) - Owed(s.positions, s.listings, t) == Total(s.log, Surplus(dep.self, t))
    ensures Total(s.log, Inflow(t)) == Total(s.log, Outflow(dep.self, t)) + Owed(s.positions, s.listings, t)
  {
    ReachableKeeps(dep, s);
    BalanceCovers(dep.self, s.positions, s.listings, s.tokens, s.log, t);
    assert TokenBooks(dep.self, s.positions, s.listings, s.tokens, s.log, t);
  }

  function ReleasedOne(P: Positions, o: Id, id: Id): int {
    if id in P && P[id].offerId == o && P[id].status == Released then P[id].amount else 0
  }

  function ReleasedFrom(P: Positions, o: Id): nat -> int {
    (id: nat) => ReleasedOne(P, o, id)
  }

  // However locks, top-ups, bindings, refunds and the unlocking interleaved, a listing that was
  // taken down and has no live position left has returned exactly what was locked under it,
  // less what was released to buyers.
  lemma ClosedListingReturnsTheRest(dep: Deployment, s: State, o: Id)
    requires Reachable(dep, s) && o != 0 && o in s.listings && !s.listings[o].open
    requires forall id :: id in s.positions && s.positions[id].offerId == o ==> !Live(s.positions[id])
    ensures Total(s.log, ReturnedFor(dep.self, o)) ==
            Total(s.log, LockedFor(o)) - Sum(s.positions.Keys, ReleasedFrom(s.positions, o))
  {
    ReachableKeeps(dep, s);
    assert ListingBooks(dep.self, s.positions, s.listings, s.log, o);
    assert ListingOk(dep.self, s.listings[o], s.tokens);
    var K := s.positions.Keys;
    forall k ensures At(K, BoundTo(s.positions, o), k) == At(K, ReleasedFrom(s.positions, o), k) {}
    SumAgree(K, BoundTo(s.positions, o), K, ReleasedFrom(s.positions, o));
  }

  // ── attestations ──

  // The replay guard is never what stops an attestation: whatever the chain id, an attestation
  // for an order that is not settled has not been used.
  lemma ReplayGuardUnreachable(dep: Deployment, s: State, tx: Tx, att: Attestation, sigs: seq<Signature>)
    requires Inv(dep, s) && att.orderId in s.positions && Live(s.positions[att.orderId])
    ensures HashAttestation(dep, s, tx, att) !in s.attestationUsed
    ensures Consume(dep, s, tx, att, sigs) != Failure(AttestationReplayed)
  {
    assert SettledOne(s.positions, att.orderId) == 0;
    QuorumFaultNeverReplay(RecoverAll(dep, HashAttestation(dep, s, tx, att), sigs), 0, s.isSigner);
  }

  lemma {:induction false} QuorumFaultNeverReplay(recovered: seq<Address>, last: Address, isSigner: set<Address>)
    ensures QuorumFault(recovered, last, isSigner) != Some(AttestationReplayed)
  {
    if recovered != [] {
      QuorumFaultNeverReplay(recovered[1..], recovered[0], isSigner);
    }
  }

  // What the signers must have signed. The digest binds this contract and the current chain.
  ghost predicate Attested(dep: Deployment, s: State, tx: Tx, att: Attestation, sigs: seq<Signature>) {
    && tx.now <= att.deadline
    && SignedByQuorum(dep, Digest(Domain(tx.chainId, dep.self), att), sigs, s.isSigner, s.threshold)
  }

  // The attestation is used up, and nothing else about who may do what has changed.
  predicate OnlyUsedUp(dep: Deployment, s: State, s': State, tx: Tx, att: Attestation) {
    && s'.attestationUsed == s.attestationUsed + {Digest(Domain(tx.chainId, dep.self), att)}
    && SameSettings(s, s')
  }

  predicate SameSettings(s: State, s': State) {
    && s'.owner == s.owner && s'.isSigner == s.isSigner && s'.signerList == s.signerList
    && s'.threshold == s.threshold && s'.minScore == s.minScore && s'.depositsPaused == s.depositsPaused
    && s'.cachedDomain == s.cachedDomain && s'.cachedChainId == s.cachedChainId
  }

  // On a live position an attestation is consumed exactly when it is in time and there are as many distinct
  // listed signers as are needed, each of whom gave one of the signatures over this contract and chain. It is
  // then used up.
  lemma ConsumeExactly(dep: Deployment, s: State, tx: Tx, att: Attestation, sigs: seq<Signature>)
    requires Inv(dep, s) && att.orderId in s.positions && Live(s.positions[att.orderId])
    ensures Consume(dep, s, tx, att, sigs).Success? <==> Attested(dep, s, tx, att, sigs)
    ensures Consume(dep, s, tx, att, sigs).Success? ==>
              var used := Consume(dep, s, tx, att, sigs).value;
              && Accepted(s, used, att.orderId) && OnlyUsedUp(dep, s, used, tx, att)
  {
    ConsumeAcceptsExactlyQuorums(dep, s, tx, att, sigs);
    ReplayGuardUnreachable(dep, s, tx, att, sigs);
  }

  // Either recovery id will do, written from 27 or from zero on.
  lemma EverySignatureFormCounts(dep: Deployment, s: State, tx: Tx, att: Attestation, r: nat, low: nat, v: nat)
    requires Inv(dep, s) && att.orderId in s.positions && Live(s.positions[att.orderId])
    requires tx.now <= att.deadline && s.threshold == 1 && low <= HALF_CURVE_ORDER && (v == 27 || v == 28)
    requires dep.ecrecover(Digest(Domain(tx.chainId, dep.self), att), v, r, low) in s.isSigner
    ensures Consume(dep, s, tx, att, [Signature(r, low, v)]).Success?
    ensures Consume(dep, s, tx, att, [Signature(r, low, v - 27)]).Success?
  {
    var d := Digest(Domain(tx.chainId, dep.self), att);
    var who := [dep.ecrecover(d, v, r, low)];
    assert who[0] in Addresses(s.signerList);
    assert AllSignedBy(dep, d, [Signature(r, low, v)], who) && AllSignedBy(dep, d, [Signature(r, low, v - 27)], who);
    assert Quorum(who, s.isSigner, s.threshold);
    ConsumeExactly(dep, s, tx, att, [Signature(r, low, v)]);
    ConsumeExactly(dep, s, tx, att, [Signature(r, low, v - 27)]);
  }

  // One signature with a high s value, or with any other recovery id, spoils the whole attestation.
  lemma BadSignatureRefused(dep: Deployment, s: State, tx: Tx, att: Attestation, sigs: seq<Signature>, i: nat)
    requires Inv(dep, s) && att.orderId in s.positions && Live(s.positions[att.orderId]) && i < |sigs|
    requires sigs[i].s > HALF_CURVE_ORDER || sigs[i].v !in {0, 1, 27, 28}
    ensures Consume(dep, s, tx, att, sigs).Failure?
  {
    ConsumeExactly(dep, s, tx, att, sigs);
    var d := Digest(Domain(tx.chainId, dep.self), att);
    if SignedByQuorum(dep, d, sigs, s.isSigner, s.threshold) {
      var who :| AllSignedBy(dep, d, sigs, who) && Quorum(who, s.isSigner, s.threshold);
      assert SignedBy(dep, d, sigs[i], who[i]);
    }
  }

  // Which refusal it is: late before short, and only then is it about who signed.
  lemma ConsumeRefusals(dep: Deployment, s: State, tx: Tx, att: Attestation, sigs: seq<Signature>)
    requires Inv(dep, s) && att.orderId in s.positions && Live(s.positions[att.orderId])
    ensures var r := Consume(dep, s, tx, att, sigs);
      && (r == Failure(AttestationExpired) <==> tx.now > att.deadline)
      && (r == Failure(NotEnoughSigners) <==> tx.now <= att.deadline && |sigs| < s.threshold)
      && (r.Failure? ==> r.error in {AttestationExpired, NotEnoughSigners, BadSignature, SignersUnsorted})
  {
    ReplayGuardUnreachable(dep, s, tx, att, sigs);
    QuorumFaultsAre(RecoverAll(dep, HashAttestation(dep, s, tx, att), sigs), 0, s.isSigner);
  }

  lemma {:induction false} QuorumFaultsAre(recovered: seq<Address>, last: Address, isSigner: set<Address>)
    ensures QuorumFault(recovered, last, isSigner) in {None, Some(BadSignature), Some(SignersUnsorted)}
  {
    if recovered != [] {
      QuorumFaultsAre(recovered[1..], recovered[0], isSigner);
    }
  }

  // A release goes through exactly when the position is escrowed and a quorum signed a release of
  // this order with a high enough score: the transfer, the arithmetic, the replay guard and a
  // pause never stand in the way. It then pays the beneficiary and changes nothing else.
  lemma ReleaseExactly(dep: Deployment, s: State, tx: Tx, att: Attestation, sigs: seq<Signature>)
    requires Inv(dep, s)
    ensures var r := Step(dep, s, tx, ReleaseCall(att, sigs));
      && (r.Success? <==>
            && att.orderId in s.positions && s.positions[att.orderId].status == Escrowed
            && att.verdict == ToRelease && att.score >= s.minScore && Attested(dep, s, tx, att, sigs))
      && (r.Success? ==> PaysBeneficiary(dep, s, r.value, att) && OnlyUsedUp(dep, s, r.value, tx, att))
  {
    if att.orderId in s.positions && s.positions[att.orderId].status == Escrowed {
      ConsumeExactly(dep, s, tx, att, sigs);
      if Consume(dep, s, tx, att, sigs).Success? {
        var _ := PayOutKeeps(dep, s, Consume(dep, s, tx, att, sigs).value, att.orderId, att.score);
      }
    }
  }

  ghost predicate PaysBeneficiary(dep: Deployment, s: State, s': State, att: Attestation) {
    && att.orderId in s.positions
    && var p := s.positions[att.orderId];
       && s'.positions == s.positions[att.orderId := p.(status := Released)] && s'.listings == s.listings
       && s'.log == s.log + [ReleasedTo(att.orderId, p.beneficiary, p.token, p.amount, att.score)]
       && OnlyPaid(dep.self, s.tokens, s'.tokens, p.token, p.beneficiary, p.amount)
  }

  // A refund goes through exactly when the position is escrowed and a quorum signed a refund of
  // this order; the score does not matter. It pays the refundee.
  lemma RefundExactly(dep: Deployment, s: State, tx: Tx, att: Attestation, sigs: seq<Signature>)
    requires Inv(dep, s)
    ensures var r := Step(dep, s, tx, RefundCall(att, sigs));
      && (r.Success? <==>
            && att.orderId in s.positions && s.positions[att.orderId].status == Escrowed
            && att.verdict == ToRefund && Attested(dep, s, tx, att, sigs))
      && (r.Success? ==> PaysRefundee(dep, s, r.value, att) && OnlyUsedUp(dep, s, r.value, tx, att))
  {
    if att.orderId in s.positions && s.positions[att.orderId].status == Escrowed {
      ConsumeExactly(dep, s, tx, att, sigs);
      if Consume(dep, s, tx, att, sigs).Success? {
        DoRefundKeeps(dep, s, Consume(dep, s, tx, att, sigs).value, att.orderId);
      }
    }
  }

  ghost predicate PaysRefundee(dep: Deployment, s: State, s': State, att: Attestation) {
    && att.orderId in s.positions
    && var p := s.positions[att.orderId];
       && s'.positions == s.positions[att.orderId := p.(status := Refunded)]
       && s'.listings == ListingsAfterRefund(s.listings, p)
       && s'.log == s.log + [RefundedTo(att.orderId, p.offerId, RefundeeOf(dep.self, s, p), p.token, p.amount)]
       && OnlyPaid(dep.self, s.tokens, s'.tokens, p.token, RefundeeOf(dep.self, s, p), p.amount)
  }

  // A disputed position moves exactly on a ruling: a release with a high enough score, or a refund.
  lemma ResolveDisputeExactly(dep: Deployment, s: State, tx: Tx, att: Attestation, sigs: seq<Signature>)
    requires Inv(dep, s)
    ensures var r := Step(dep, s, tx, ResolveDisputeCall(att, sigs));
      && (r.Success? <==>
            && att.orderId in s.positions && s.positions[att.orderId].status == Disputed
            && (att.verdict == ToRefund || (att.verdict == ToRelease && att.score >= s.minScore))
            && Attested(dep, s, tx, att, sigs))
      && (r.Success? ==> OnlyUsedUp(dep, s, r.value, tx, att))
      && (r.Success? && att.verdict == ToRelease ==> PaysBeneficiary(dep, s, r.value, att))
      && (r.Success? && att.verdict == ToRefund ==> PaysRefundee(dep, s, r.value, att))
  {
    if att.orderId in s.positions && s.positions[att.orderId].status == Disputed {
      ConsumeExactly(dep, s, tx, att, sigs);
      if Consume(dep, s, tx, att, sigs).Success? {
        var used := Consume(dep, s, tx, att, sigs).value;
        if att.verdict == ToRelease {
          var _ := PayOutKeeps(dep, s, used, att.orderId, att.score);
        } else {
          DoRefundKeeps(dep, s, used, att.orderId);
        }
      }
    }
  }

  // No stuck funds: in every reachable state, at any time and on any chain id, the signers can
  // move each live position either way.
  lemma NoStuckFunds(dep: Deployment, s: State, tx: Tx, id: Id, verdict: Verdict)
    returns (att: Attestation, sigs: seq<Signature>)
    requires Reachable(dep, s) && ListedCanSign(dep, s.signerList)
    requires id in s.positions && Live(s.positions[id]) && verdict != Hold
    ensures var call := if s.positions[id].status == Disputed then ResolveDisputeCall(att, sigs)
                        else if verdict == ToRelease then ReleaseCall(att, sigs)
                        else RefundCall(att, sigs);
            var r := Step(dep, s, tx, call);
            && att.orderId == id && att.verdict == verdict
            && r.Success?
            && (verdict == ToRelease ==> PaysBeneficiary(dep, s, r.value, att))
            && (verdict == ToRefund ==> PaysRefundee(dep, s, r.value, att))
  {
    ReachableKeeps(dep, s);
    att := Attestation(id, verdict, s.minScore, 0, tx.now);
    sigs := QuorumCanBeSigned(dep, s, Digest(Domain(tx.chainId, dep.self), att));
    ReleaseExactly(dep, s, tx, att, sigs);
    RefundExactly(dep, s, tx, att, sigs);
    ResolveDisputeExactly(dep, s, tx, att, sigs);
  }

  // ── exactly once ──

  predicate SameTerms(p: Position, q: Position) {
    p.(status := q.status) == q
  }

  // A position is never removed, its terms never change, and a settled one never changes again.
  predicate Kept(P: Positions, P': Positions, id: Id) {
    id in P ==> id in P' && SameTerms(P[id], P'[id]) && (Settled(P[id]) ==> P'[id] == P[id])
  }

  ghost predicate Grows(s: State, s': State) {
    && (forall id :: Kept(s.positions, s'.positions, id))
    && s.log <= s'.log
  }

  lemma PositionsGrow(P: Positions, P': Positions, id: Id)
    requires SameBut(P, P', id) && Kept(P, P', id)
    ensures forall x :: Kept(P, P', x)
  {}

  lemma PlainStepLogs(dep: Deployment, s: State, tx: Tx, call: Call)
    requires Step(dep, s, tx, call).Success?
    requires !call.ReleaseCall? && !call.RefundCall? && !call.ResolveDisputeCall?
    ensures s.log <= Step(dep, s, tx, call).value.log
  {}

  lemma PlainStepGrows(dep: Deployment, s: State, tx: Tx, call: Call)
    requires Step(dep, s, tx, call).Success?
    requires !call.ReleaseCall? && !call.RefundCall? && !call.ResolveDisputeCall?
    ensures Grows(s, Step(dep, s, tx, call).value)
  {
    PlainStepLogs(dep, s, tx, call);
    var s' := Step(dep, s, tx, call).value;
    if call.DepositCall? || call.BindListingLockCall? || call.RaiseDisputeCall? {
      PositionsGrow(s.positions, s'.positions, call.orderId);
    } else {
      assert s'.positions == s.positions;
    }
  }

  lemma AttestedStepGrows(dep: Deployment, s: State, tx: Tx, call: Call)
    requires Inv(dep, s) && Step(dep, s, tx, call).Success?
    requires call.ReleaseCall? || call.RefundCall? || call.ResolveDisputeCall?
    ensures Grows(s, Step(dep, s, tx, call).value)
  {
    match call
    case ReleaseCall(att, sigs) => ReleaseExactly(dep, s, tx, att, sigs);
    case RefundCall(att, sigs) => RefundExactly(dep, s, tx, att, sigs);
    case ResolveDisputeCall(att, sigs) => ResolveDisputeExactly(dep, s, tx, att, sigs);
    PositionsGrow(s.positions, Step(dep, s, tx, call).value.positions, call.att.orderId);
  }

  lemma StepGrows(dep: Deployment, s: State, tx: Tx, call: Call)
    requires Inv(dep, s) && Step(dep, s, tx, call).Success?
    ensures Grows(s, Step(dep, s, tx, call).value)
  {
    if call.ReleaseCall? || call.RefundCall? || call.ResolveDisputeCall? {
      AttestedStepGrows(dep, s, tx, call);
    } else {
      PlainStepGrows(dep, s, tx, call);
    }
  }

  lemma GrowsTransitive(a: State, b: State, c: State)
    requires Grows(a, b) && Grows(b, c)
    ensures Grows(a, c)
  {
    forall id ensures Kept(a.positions, c.positions, id) {
      assert Kept(a.positions, b.positions, id) && Kept(b.positions, c.positions, id);
    }
  }

  // Over any further run: the order id stays used, its token, amount, payer, beneficiary and offer
  // stay as they were, and once released or refunded it stays so.
  lemma {:induction false} PositionsArePermanent(dep: Deployment, s: State, run: seq<(Tx, Call)>)
    requires Inv(dep, s) && AllSendable(dep, run)
    ensures Grows(s, Exec(dep, s, run))
  {
    if run != [] {
      var init := run[..|run| - 1];
      PositionsArePermanent(dep, s, init);
      RunKeeps(dep, s, init);
      var before := Exec(dep, s, init);
      var (tx, call) := run[|run| - 1];
      if Step(dep, before, tx, call).Success? {
        StepGrows(dep, before, tx, call);
        GrowsTransitive(s, before, Exec(dep, s, run));
      }
    }
  }

  // Exactly-once payout: over the whole log an order is settled once if its position is settled and
  // never otherwise, and each logged settlement has the position's own token, amount and payee.
  lemma SettledExactlyOnce(dep: Deployment, s: State, id: Id)
    requires Reachable(dep, s)
    ensures Total(s.log, SettlementOf(id)) == SettledOne(s.positions, id)
    ensures forall e :: e in s.log ==> Truthful(dep.self, s.positions, e)
  {
    ReachableKeeps(dep, s);
  }

  // ── governance ──

  // The owner cannot touch money: no governance call changes a token, a position, a listing, a
  // used attestation or the log.
  lemma OwnerMovesNoMoney(dep: Deployment, s: State, tx: Tx, call: Call)
    requires call.SetSignersCall? || call.SetDepositsPausedCall? || call.TransferOwnershipCall?
    requires Step(dep, s, tx, call).Success?
    ensures tx.sender == s.owner
    ensures var s' := Step(dep, s, tx, call).value;
            && s'.tokens == s.tokens && s'.positions == s.positions && s'.listings == s.listings
            && s'.attestationUsed == s.attestationUsed && s'.log == s.log
  {}

  // After any accepted change of signers the lookup table is exactly the new list, duplicate-free
  // and with a reachable, non-zero threshold; every other list is refused.
  lemma SignerRotationExactly(s: State, tx: Tx, signers: seq<Address>, threshold: nat, minScore: nat)
    ensures SetSigners(s, tx, signers, threshold, minScore).Success? <==>
            tx.sender == s.owner && SignersOk(Addresses(signers), signers, threshold, minScore)
    ensures SetSigners(s, tx, signers, threshold, minScore).Success? ==>
            var s' := SetSigners(s, tx, signers, threshold, minScore).value;
            s'.isSigner == Addresses(signers) && s'.signerList == signers && s'.threshold == threshold
              && s'.minScore == minScore
  {
    SettingsAcceptedExactly(signers, threshold, minScore);
  }

  // A pause stops deposits and new listings only.
  lemma PauseStopsOnlyMoneyIn(dep: Deployment, s: State, tx: Tx, call: Call)
    requires Inv(dep, s) && s.depositsPaused
    ensures (call.DepositCall? || call.LockListingCall?) ==> Step(dep, s, tx, call) == Failure(DepositsArePaused)
    ensures (call.ReleaseCall? || call.RefundCall? || call.ResolveDisputeCall?) ==>
            (Step(dep, s, tx, call).Success? <==> Step(dep, s.(depositsPaused := false), tx, call).Success?)
  {
    var u := s.(depositsPaused := false);
    match call
    case ReleaseCall(att, sigs) => ReleaseExactly(dep, s, tx, att, sigs); ReleaseExactly(dep, u, tx, att, sigs);
    case RefundCall(att, sigs) => RefundExactly(dep, s, tx, att, sigs); RefundExactly(dep, u, tx, att, sigs);
    case ResolveDisputeCall(att, sigs) =>
      ResolveDisputeExactly(dep, s, tx, att, sigs);
      ResolveDisputeExactly(dep, u, tx, att, sigs);
    case _ =>
  }
}
