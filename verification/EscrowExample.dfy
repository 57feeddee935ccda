// One concrete run of the contract, in which listing zero ends up bound beyond its positions.
module EscrowExample {
  import opened Results
  import opened Sums
  import opened Erc20
  import opened EscrowModel
  import opened EscrowQuorum
  import opened EscrowBooks
  import opened EscrowTheorems
  import opened EscrowCalls

  const SELF: Address := 1
  const TOKEN: Address := 5
  const SIGNER: Address := 7
  const MAKER_WALLET: Address := 20
  const TAKER_WALLET: Address := 30
  const ORDER: Id := 4

  // Every signature recovers to the one signer.
  function Dep(): Deployment {
    Deployment(SELF, (d, v, r, s) => SIGNER)
  }

  // The maker has ten tokens and has approved the contract.
  function MakersTokens(): Ledger {
    Ledger(map[MAKER_WALLET := 10], map[(MAKER_WALLET, SELF) := 10], 10, false)
  }

  function TxOf(sender: Address): Tx {
    Tx(sender, 0, 56)
  }

  function OneSig(): Signature {
    Signature(1, 1, 27)
  }

  function Fresh(): State {
    State(SIGNER, {SIGNER}, [SIGNER], 1, 0, false, map[], map[], {}, Domain(56, SELF), 56, map[TOKEN := MakersTokens()],
          [])
  }

  predicate OneSigner(c: State) {
    && c.owner == SIGNER && c.isSigner == {SIGNER} && c.threshold == 1 && c.minScore == 0 && !c.depositsPaused
    && c.cachedChainId == 56 && c.cachedDomain == Domain(56, SELF)
  }

  lemma TokensAreFresh()
    ensures FreshTokens(SELF, map[TOKEN := MakersTokens()])
  {
    var l := MakersTokens();
    SumRemove(l.balances.Keys, Holding(l), MAKER_WALLET);
    assert l.balances.Keys - {MAKER_WALLET} == {};
    assert Held(l) == 10;
  }

  lemma FreshIsDeployed()
    ensures Deploy(Dep(), TxOf(SIGNER), [SIGNER], 1, 0, map[TOKEN := MakersTokens()]) == Success(Fresh())
    ensures Reachable(Dep(), Fresh())
  {
    TokensAreFresh();
    SettingsAcceptedExactly([SIGNER], 1, 0);
    assert Addresses([SIGNER]) == {SIGNER};
    assert ReachedBy(Dep(), Fresh(), TxOf(SIGNER), [SIGNER], 1, 0, map[TOKEN := MakersTokens()], []);
  }

  // One more transaction leads from one reachable state to another.
  lemma ReachableStep(dep: Deployment, s: State, tx: Tx, call: Call)
    requires Reachable(dep, s) && Sendable(dep, tx) && Step(dep, s, tx, call).Success?
    ensures Reachable(dep, Step(dep, s, tx, call).value)
  {
    var tx0, signers, threshold, minScore, T, run :| ReachedBy(dep, s, tx0, signers, threshold, minScore, T, run);
    var longer := run + [(tx, call)];
    assert longer[..|longer| - 1] == run;
    assert ReachedBy(dep, Step(dep, s, tx, call).value, tx0, signers, threshold, minScore, T, longer);
  }

  lemma OneSignature(c: State, orderId: Id, verdict: Verdict, score: nat)
    requires OneSigner(c)
    ensures Attested(Dep(), c, TxOf(SIGNER), Attestation(orderId, verdict, score, 0, 0), [OneSig()])
  {
    var d := Digest(Domain(56, SELF), Attestation(orderId, verdict, score, 0, 0));
    assert AllSignedBy(Dep(), d, [OneSig()], [SIGNER]) && Quorum([SIGNER], c.isSigner, c.threshold);
  }

  // The maker locks ten under an offer.
  lemma MakerLocks(s: State, o: Id) returns (s': State)
    requires Reachable(Dep(), s) && OneSigner(s) && s.listings == map[] && s.tokens == map[TOKEN := MakersTokens()]
    ensures Reachable(Dep(), s') && OneSigner(s') && s'.positions == s.positions
    ensures Step(Dep(), s, TxOf(MAKER_WALLET), LockListingCall(o, TOKEN, 10)) == Success(s')
    ensures o in s'.listings && s'.listings[o] == Listing(MAKER_WALLET, TOKEN, 10, 0, true)
  {
    var tx, call := TxOf(MAKER_WALLET), LockListingCall(o, TOKEN, 10);
    ReachableKeeps(Dep(), s);
    LockListingExactly(Dep(), s, tx, o, TOKEN, 10);
    assert MayLock(s.listings, o, MAKER_WALLET, TOKEN, 10);
    assert CanCollect(SELF, s.tokens, TOKEN, MAKER_WALLET, 10);
    s' := Step(Dep(), s, tx, call).value;
    ReachableStep(Dep(), s, tx, call);
  }

  // The maker's ten are deposited for an order.
  lemma PayerDeposits(s: State) returns (s': State)
    requires s == Fresh()
    ensures Step(Dep(), s, TxOf(MAKER_WALLET), DepositCall(ORDER, TOKEN, 10, TAKER_WALLET)) == Success(s')
    ensures OneSigner(s') && ORDER in s'.positions && s'.positions[ORDER].status == Escrowed
  {
    FreshIsDeployed();
    ReachableKeeps(Dep(), s);
    DepositExactly(Dep(), s, TxOf(MAKER_WALLET), ORDER, TOKEN, 10, TAKER_WALLET);
    assert CanCollect(SELF, s.tokens, TOKEN, MAKER_WALLET, 10);
    s' := Deposit(Dep(), s, TxOf(MAKER_WALLET), ORDER, TOKEN, 10, TAKER_WALLET).value;
  }

  // Ten are bound to an order.
  lemma SliceIsCut(s: State, o: Id) returns (s': State)
    requires Reachable(Dep(), s) && OneSigner(s) && ORDER !in s.positions
    requires o in s.listings && s.listings[o] == Listing(MAKER_WALLET, TOKEN, 10, 0, true)
    ensures Reachable(Dep(), s') && OneSigner(s')
    ensures Step(Dep(), s, TxOf(SIGNER), BindListingLockCall(ORDER, o, 10, TAKER_WALLET)) == Success(s')
    ensures s'.listings == s.listings[o := Listing(MAKER_WALLET, TOKEN, 10, 10, true)]
    ensures s'.positions == s.positions[ORDER := Position(TOKEN, 10, MAKER_WALLET, TAKER_WALLET, o, Escrowed)]
  {
    s' := BindListingLock(s, ORDER, o, 10, TAKER_WALLET).value;
    ReachableStep(Dep(), s, TxOf(SIGNER), BindListingLockCall(ORDER, o, 10, TAKER_WALLET));
  }

  // And refunded.
  lemma SliceIsRefunded(s: State) returns (s': State)
    requires Reachable(Dep(), s) && OneSigner(s)
    requires ORDER in s.positions && s.positions[ORDER] == Position(TOKEN, 10, MAKER_WALLET, TAKER_WALLET, 0, Escrowed)
    ensures Reachable(Dep(), s') && s'.listings == s.listings
    ensures s'.positions == s.positions[ORDER := Position(TOKEN, 10, MAKER_WALLET, TAKER_WALLET, 0, Refunded)]
  {
    var tx, att := TxOf(SIGNER), Attestation(ORDER, ToRefund, 0, 0, 0);
    ReachableKeeps(Dep(), s);
    OneSignature(s, ORDER, ToRefund, 0);
    RefundExactly(Dep(), s, tx, att, [OneSig()]);
    s' := Step(Dep(), s, tx, RefundCall(att, [OneSig()])).value;
    ReachableStep(Dep(), s, tx, RefundCall(att, [OneSig()]));
  }

  // Lock offer zero, bind all of it, refund: the ten are paid back to the maker, yet stay counted as bound
  // although no position is left that was not refunded.
  lemma OfferZeroStaysBound() returns (s: State)
    ensures Reachable(Dep(), s)
    ensures 0 in s.listings && s.listings[0].open && s.listings[0].bound == 10 && BoundSum(s.positions, 0) == 0
    ensures !ListingBooks(SELF, s.positions, s.listings, s.log, 0)
  {
    FreshIsDeployed();
    s := MakerLocks(Fresh(), 0);
    s := SliceIsCut(s, 0);
    s := SliceIsRefunded(s);
    forall k ensures At(s.positions.Keys, BoundTo(s.positions, 0), k) == 0 {}
    SumVanishes(s.positions.Keys, BoundTo(s.positions, 0));
  }

  // The listing ledger is right in every reachable state exactly for offers other than offer zero.
  lemma ListingBooksExactly(o: Id)
    ensures (forall dep, s {:trigger Reachable(dep, s)} ::
               Reachable(dep, s) ==> ListingBooks(dep.self, s.positions, s.listings, s.log, o))
            <==> o != 0
  {
    if o == 0 {
      var s := OfferZeroStaysBound();
      assert Reachable(Dep(), s);
    } else {
      forall dep, s | Reachable(dep, s) ensures ListingBooks(dep.self, s.positions, s.listings, s.log, o) {
        ReachableKeeps(dep, s);
      }
    }
  }
}
