// What a transaction can never undo: the identity of a listing, and where a position came from.
module EscrowGrowth {
  import opened Results
  import opened EscrowModel
  import opened EscrowBooks
  import opened EscrowTheorems

  // A listing keeps its maker and token, is never opened again, and while it is open its total only grows.
  predicate ListKept(L: Listings, L': Listings, o: Id) {
    o in L ==>
      && o in L'
      && L'[o].maker == L[o].maker && L'[o].token == L[o].token
      && (L'[o].open ==> L[o].open && L'[o].total >= L[o].total)
  }

  ghost predicate ListingsGrow(L: Listings, L': Listings) {
    forall o {:trigger ListKept(L, L', o)} :: ListKept(L, L', o)
  }

  // A new position comes from a deposit, unless the call binds it.
  predicate FromDeposit(P: Positions, P': Positions, call: Call, id: Id) {
    id in P' && id !in P && P'[id].offerId != 0 ==>
      && call.BindListingLockCall? && call.orderId == id
      && P'[id].offerId == call.offerId && P'[id].amount == call.amount && P'[id].beneficiary == call.beneficiary
  }

  ghost predicate NewFromDeposits(P: Positions, P': Positions, call: Call) {
    forall id {:trigger FromDeposit(P, P', call, id)} :: FromDeposit(P, P', call, id)
  }

  lemma OneListing(L: Listings, L': Listings, o: Id)
    requires SameBut(L, L', o) && ListKept(L, L', o)
    ensures ListingsGrow(L, L')
  {}

  lemma RefundListings(dep: Deployment, s: State, id: Id)
    requires id in s.positions && DoRefund(dep, s, id).Success?
    ensures ListingsGrow(s.listings, DoRefund(dep, s, id).value.listings)
  {
    OneListing(s.listings, DoRefund(dep, s, id).value.listings, s.positions[id].offerId);
  }

  lemma AttestedStepListings(dep: Deployment, s: State, tx: Tx, call: Call)
    requires Step(dep, s, tx, call).Success?
    requires call.ReleaseCall? || call.RefundCall? || call.ResolveDisputeCall?
    ensures ListingsGrow(s.listings, Step(dep, s, tx, call).value.listings)
  {
    var used := Consume(dep, s, tx, call.att, call.sigs).value;
    assert used.listings == s.listings && used.positions == s.positions;
    if DoRefund(dep, used, call.att.orderId).Success? {
      RefundListings(dep, used, call.att.orderId);
    }
    OneListing(s.listings, s.listings, 0);
  }

  lemma PlainStepListings(dep: Deployment, s: State, tx: Tx, call: Call)
    requires Step(dep, s, tx, call).Success? && Inv(dep, s)
    requires !call.ReleaseCall? && !call.RefundCall? && !call.ResolveDisputeCall?
    ensures ListingsGrow(s.listings, Step(dep, s, tx, call).value.listings)
  {
    var s' := Step(dep, s, tx, call).value;
    if call.LockListingCall? || call.UnlockListingCall? || call.BindListingLockCall? {
      OneListing(s.listings, s'.listings, call.offerId);
    } else {
      assert s'.listings == s.listings;
      OneListing(s.listings, s.listings, 0);
    }
  }

  lemma PlainStepDeposits(dep: Deployment, s: State, tx: Tx, call: Call)
    requires Step(dep, s, tx, call).Success?
    requires !call.ReleaseCall? && !call.RefundCall? && !call.ResolveDisputeCall?
    ensures NewFromDeposits(s.positions, Step(dep, s, tx, call).value.positions, call)
  {}

  lemma AttestedStepDeposits(dep: Deployment, s: State, tx: Tx, call: Call)
    requires Inv(dep, s) && Step(dep, s, tx, call).Success?
    requires call.ReleaseCall? || call.RefundCall? || call.ResolveDisputeCall?
    ensures NewFromDeposits(s.positions, Step(dep, s, tx, call).value.positions, call)
  {
    match call
    case ReleaseCall(att, sigs) => ReleaseExactly(dep, s, tx, att, sigs);
    case RefundCall(att, sigs) => RefundExactly(dep, s, tx, att, sigs);
    case ResolveDisputeCall(att, sigs) => ResolveDisputeExactly(dep, s, tx, att, sigs);
  }

  // All that one transaction leaves standing.
  ghost predicate ChainGrows(s: State, s': State, call: Call) {
    Grows(s, s') && ListingsGrow(s.listings, s'.listings) && NewFromDeposits(s.positions, s'.positions, call)
  }

  lemma StepChainGrows(dep: Deployment, s: State, tx: Tx, call: Call)
    requires Inv(dep, s) && Step(dep, s, tx, call).Success?
    ensures ChainGrows(s, Step(dep, s, tx, call).value, call)
  {
    StepGrows(dep, s, tx, call);
    if call.ReleaseCall? || call.RefundCall? || call.ResolveDisputeCall? {
      AttestedStepListings(dep, s, tx, call);
      AttestedStepDeposits(dep, s, tx, call);
    } else {
      PlainStepListings(dep, s, tx, call);
      PlainStepDeposits(dep, s, tx, call);
    }
  }
}
