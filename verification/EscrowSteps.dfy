// Every call keeps the books.
module EscrowSteps {
  import opened Results
  import opened Erc20
  import opened EscrowModel
  import opened EscrowQuorum
  import opened EscrowBooks

  // ── what a pull and a push do to the token contracts ──

  // The contract's balance of `token` changed by `change`, and of no other token.
  ghost predicate Shifted(self: Address, T: Ledgers, T': Ledgers, token: Address, change: int) {
    && token in T && T'.Keys == T.Keys
    && TokensOk(self, T')
    && (forall t :: Balance(self, T', t) == Balance(self, T, t) + if t == token then change else 0)
  }

  lemma ShiftOne(self: Address, T: Ledgers, token: Address, l: Ledger)
    requires TokensOk(self, T) && token in T
    requires LedgerOk(self, l)
    ensures Shifted(self, T, T[token := l], token, BalanceOf(l, self) - BalanceOf(T[token], self))
  {
    var T' := T[token := l];
    forall t | t in T' ensures LedgerOk(self, T'[t]) {
      assert t != token ==> LedgerOk(self, T[t]);
    }
  }

  lemma StillNoApprovals(self: Address, l: Ledger, m: Ledger)
    requires NoApprovals(self, l)
    requires forall x :: (self, x) in m.allowances ==>
               (self, x) in l.allowances && m.allowances[(self, x)] == l.allowances[(self, x)]
    ensures NoApprovals(self, m)
  {
    forall x ensures Allowance(m, self, x) == 0 {
      assert Allowance(l, self, x) == 0;
    }
  }

  // A pull that is accepted brings in exactly the amount, whatever the token does.
  lemma PullBringsExactly(dep: Deployment, s: State, token: Address, src: Address, amount: uint256)
    requires TokensOk(dep.self, s.tokens) && src != dep.self && Pull(dep, s, token, src, amount).Success?
    ensures var s' := Pull(dep, s, token, src, amount).value;
            s' == s.(tokens := s'.tokens) && Shifted(dep.self, s.tokens, s'.tokens, token, amount)
  {
    var l := s.tokens[token];
    assert LedgerOk(dep.self, l);
    TransferFromSound(l, dep.self, src, dep.self, amount);
    StillNoApprovals(dep.self, l, TransferFrom(l, dep.self, src, dep.self, amount).value);
    ShiftOne(dep.self, s.tokens, token, TransferFrom(l, dep.self, src, dep.self, amount).value);
  }

  // The contract has exactly `amount` less, `dst` exactly that much more, and nobody else notices. When
  // `dst` is the contract itself nothing moves.
  ghost predicate OnlyPaid(self: Address, T: Ledgers, T': Ledgers, token: Address, dst: Address, amount: int) {
    && T'.Keys == T.Keys
    && forall t, a :: t in T ==>
         BalanceOf(T'[t], a) == BalanceOf(T[t], a) + (if t == token && a == dst then amount else 0)
                                - (if t == token && a == self then amount else 0)
  }

  lemma LedgerPays(self: Address, l: Ledger, dst: Address, amount: uint256)
    requires LedgerOk(self, l) && amount <= BalanceOf(l, self)
    ensures Transfer(l, self, dst, amount).Success?
    ensures var l' := Transfer(l, self, dst, amount).value;
            && LedgerOk(self, l')
            && BalanceOf(l', self) == BalanceOf(l, self) - (if dst == self then 0 else amount)
            && forall a :: a != self ==> BalanceOf(l', a) == BalanceOf(l, a) + if a == dst then amount else 0
  {
    TransferRefusedOnlyByBalance(l, self, dst, amount);
    TransferSound(l, self, dst, amount);
    MoveConserves(l, self, dst, amount, amount);
    StillNoApprovals(self, l, Transfer(l, self, dst, amount).value);
  }

  // A push of what the contract has always goes through, and takes exactly the amount unless
  // the contract pays itself.
  lemma PushPaysExactly(dep: Deployment, s: State, token: Address, dst: Address, amount: uint256)
    requires TokensOk(dep.self, s.tokens) && token in s.tokens && amount <= Balance(dep.self, s.tokens, token)
    ensures Push(dep, s, token, dst, amount).Success?
    ensures var s' := Push(dep, s, token, dst, amount).value;
            && s' == s.(tokens := s'.tokens)
            && Shifted(dep.self, s.tokens, s'.tokens, token, if dst == dep.self then 0 else 0 - amount)
            && OnlyPaid(dep.self, s.tokens, s'.tokens, token, dst, amount)
  {
    assert LedgerOk(dep.self, s.tokens[token]);
    LedgerPays(dep.self, s.tokens[token], dst, amount);
    ShiftOne(dep.self, s.tokens, token, Transfer(s.tokens[token], dep.self, dst, amount).value);
  }

  // ── how each call moves the books ──

  lemma DepositMoves(self: Address, P: Positions, L: Listings, T: Ledgers, T': Ledgers, id: Id, p: Position)
    requires id !in P && p.offerId == 0 && p.status == Escrowed
    requires Shifted(self, T, T', p.token, p.amount)
    ensures Moves(self, P, P[id := p], L, L, T, T', id, 0, Deposited(id, p.payer, p.token, p.amount))
  {}

  lemma LockMoves(self: Address, P: Positions, L: Listings, T: Ledgers, T': Ledgers, id: Id, o: Id, l: Listing,
                  amount: nat)
    requires if o in L then l.total == L[o].total + amount && l.bound == L[o].bound && l.token == L[o].token
             else l.total == amount && l.bound == 0
    requires Shifted(self, T, T', l.token, amount)
    ensures Moves(self, P, P, L, L[o := l], T, T', id, o, ListingLocked(o, l.maker, l.token, amount))
  {}

  lemma UnlockMoves(self: Address, P: Positions, L: Listings, T: Ledgers, T': Ledgers, id: Id, o: Id, l: Listing)
    requires o in L && l.bound == L[o].bound == l.total && l.token == L[o].token && L[o].bound <= L[o].total
    requires Shifted(self, T, T', l.token, L[o].bound - L[o].total)
    ensures Moves(self, P, P, L, L[o := l], T, T', id, o, ListingUnlocked(o, l.maker, l.token, L[o].total - L[o].bound))
  {}

  lemma BindMoves(self: Address, P: Positions, L: Listings, T: Ledgers, id: Id, o: Id, p: Position, l: Listing)
    requires id !in P && p.offerId == o && p.status == Escrowed
    requires o in L && l.total == L[o].total && l.bound == L[o].bound + p.amount && l.token == L[o].token == p.token
    ensures Moves(self, P, P[id := p], L, L[o := l], T, T, id, o, ListingBound(o, id, p.amount))
  {}

  lemma DisputeMoves(self: Address, P: Positions, L: Listings, T: Ledgers, id: Id, sender: Address)
    requires id in P && P[id].status == Escrowed
    ensures Moves(self, P, P[id := P[id].(status := Disputed)], L, L, T, T, id, 0, DisputeRaised(id, sender))
  {}

  lemma ReleaseMoves(self: Address, P: Positions, L: Listings, T: Ledgers, T': Ledgers, id: Id, score: nat)
    requires id in P && Live(P[id])
    requires Shifted(self, T, T', P[id].token, if P[id].beneficiary == self then 0 else 0 - P[id].amount)
    ensures Moves(self, P, P[id := P[id].(status := Released)], L, L, T, T', id, 0,
                  ReleasedTo(id, P[id].beneficiary, P[id].token, P[id].amount, score))
  {}

  lemma RefundToListingMoves(self: Address, P: Positions, L: Listings, T: Ledgers, id: Id)
    requires id in P && Live(P[id]) && P[id].offerId in L && P[id].offerId != 0
    requires P[id].token == L[P[id].offerId].token && P[id].amount <= L[P[id].offerId].bound
    ensures var o := P[id].offerId;
            Moves(self, P, P[id := P[id].(status := Refunded)], L, L[o := L[o].(bound := L[o].bound - P[id].amount)],
                  T, T, id, o, RefundedTo(id, o, self, P[id].token, P[id].amount))
  {}

  lemma RefundOfDepositMoves(self: Address, P: Positions, L: Listings, T: Ledgers, T': Ledgers, id: Id)
    requires id in P && Live(P[id]) && P[id].payer != self && P[id].offerId == 0
    requires Shifted(self, T, T', P[id].token, 0 - P[id].amount)
    ensures Moves(self, P, P[id := P[id].(status := Refunded)], L, L, T, T', id, 0,
                  RefundedTo(id, 0, P[id].payer, P[id].token, P[id].amount))
  {}

  lemma RefundToMakerMoves(self: Address, P: Positions, L: Listings, T: Ledgers, T': Ledgers, id: Id)
    requires id in P && Live(P[id]) && P[id].payer != self && P[id].offerId in L && P[id].offerId != 0
    requires P[id].amount <= L[P[id].offerId].bound <= L[P[id].offerId].total
    requires Shifted(self, T, T', P[id].token, 0 - P[id].amount)
    ensures var o, a := P[id].offerId, P[id].amount;
            Moves(self, P, P[id := P[id].(status := Refunded)], L,
                  L[o := L[o].(total := L[o].total - a, bound := L[o].bound - a)],
                  T, T', id, o, RefundedTo(id, o, P[id].payer, P[id].token, a))
  {}

  lemma CreditMoves(self: Address, P: Positions, L: Listings, T: Ledgers, T': Ledgers, id: Id, token: Address,
                    change: int)
    requires Shifted(self, T, T', token, change)
    ensures Moves(self, P, P, L, L, T, T', id, 0, Credited(token, change))
  {}

  // ── the calls ──

  lemma GovernanceKeeps(dep: Deployment, s: State, tx: Tx, call: Call)
    requires Inv(dep, s) && Step(dep, s, tx, call).Success?
    requires call.SetSignersCall? || call.SetDepositsPausedCall? || call.TransferOwnershipCall?
    ensures Inv(dep, Step(dep, s, tx, call).value)
  {
    if call.SetSignersCall? {
      SettingsAcceptedExactly(call.signers, call.threshold, call.minScore);
    }
  }

  // Some order id without a position, for steps that touch no position.
  lemma UnusedId(P: Positions) returns (id: Id)
    ensures id !in P
  {
    id := 0;
    if P.Keys != {} {
      var m := MaximumOf(P.Keys);
      id := m + 1;
    }
  }

  // What a step must show to keep the invariant: where it leaves each part of the storage.
  ghost predicate Follows(self: Address, s: State, s': State, id: Id, o: Id, e: Event) {
    && s'.log == s.log + [e]
    && s'.isSigner == s.isSigner && s'.signerList == s.signerList
    && s'.threshold == s.threshold && s'.minScore == s.minScore
    && s'.cachedDomain == s.cachedDomain && s'.cachedChainId == s.cachedChainId
    && TokensOk(self, s'.tokens)
    && Placed(self, s'.positions, s'.listings, s'.tokens)
    && Moves(self, s.positions, s'.positions, s.listings, s'.listings, s.tokens, s'.tokens, id, o, e)
    && LogMoves(self, s.positions, s'.positions, id, e)
    && (forall d :: d in s'.attestationUsed ==> d in s.attestationUsed || SettledOne(s'.positions, d.att.orderId) == 1)
  }

  ghost predicate LogMoves(self: Address, P: Positions, P': Positions, id: Id, e: Event) {
    && (id in P ==> id in P' && (Settled(P[id]) ==> P'[id] == P[id]))
    && Truthful(self, P', e)
    && forall k :: SettlementOf(k)(e) == SettledOne(P', k) - SettledOne(P, k)
  }

  lemma UsedFollows(P: Positions, P': Positions, used: set<Digest>, used': set<Digest>, id: Id)
    requires UsedOk(P, used) && SameBut(P, P', id)
    requires id in P ==> id in P' && (Settled(P[id]) ==> P'[id] == P[id])
    requires forall d :: d in used' ==> d in used || SettledOne(P', d.att.orderId) == 1
    ensures UsedOk(P', used')
  {}

  lemma InvFollows(dep: Deployment, s: State, s': State, id: Id, o: Id, e: Event)
    requires Inv(dep, s) && Follows(dep.self, s, s', id, o, e)
    ensures Inv(dep, s')
  {
    BooksFollow(dep.self, s.positions, s'.positions, s.listings, s'.listings, s.tokens, s'.tokens, s.log, id, o, e);
    LogFollows(dep.self, s.positions, s'.positions, s.log, id, e);
    UsedFollows(s.positions, s'.positions, s.attestationUsed, s'.attestationUsed, id);
  }

  // The parts of the invariant a step looks at.
  ghost predicate Sane(self: Address, s: State) {
    TokensOk(self, s.tokens) && Placed(self, s.positions, s.listings, s.tokens)
  }

  // ── where each call leaves the positions, the listings and the log ──

  lemma PlacePosition(self: Address, P: Positions, L: Listings, T: Ledgers, T': Ledgers, id: Id, p: Position)
    requires Placed(self, P, L, T) && PositionOk(self, p, L, T) && T'.Keys == T.Keys
    ensures Placed(self, P[id := p], L, T')
  {
    var P' := P[id := p];
    forall x | x in P' ensures PositionOk(self, P'[x], L, T') {
      assert x != id ==> PositionOk(self, P[x], L, T);
    }
    forall o | o in L ensures ListingOk(self, L[o], T') {
      assert ListingOk(self, L[o], T);
    }
  }

  lemma PlaceListing(self: Address, P: Positions, L: Listings, T: Ledgers, T': Ledgers, o: Id, l: Listing)
    requires Placed(self, P, L, T) && ListingOk(self, l, T) && T'.Keys == T.Keys
    requires o in L ==> l.token == L[o].token && l.maker == L[o].maker
    ensures Placed(self, P, L[o := l], T')
  {
    var L' := L[o := l];
    forall x | x in P ensures PositionOk(self, P[x], L', T') {
      assert PositionOk(self, P[x], L, T);
    }
    forall x | x in L' ensures ListingOk(self, L'[x], T') {
      assert x != o ==> ListingOk(self, L[x], T);
    }
  }

  lemma LogNothing(self: Address, P: Positions, id: Id, e: Event)
    requires e.ListingLocked? || e.ListingUnlocked? || (e.Credited? && e.change >= 0)
    ensures LogMoves(self, P, P, id, e)
  {}

  lemma LogNewPosition(self: Address, P: Positions, id: Id, p: Position, e: Event)
    requires id !in P && p.status == Escrowed && (e.Deposited? || e.ListingBound?)
    ensures LogMoves(self, P, P[id := p], id, e)
  {}

  lemma LogDispute(self: Address, P: Positions, id: Id, e: Event)
    requires id in P && P[id].status == Escrowed && e.DisputeRaised?
    ensures LogMoves(self, P, P[id := P[id].(status := Disputed)], id, e)
  {}

  lemma LogRelease(self: Address, P: Positions, id: Id, score: nat)
    requires id in P && Live(P[id])
    ensures LogMoves(self, P, P[id := P[id].(status := Released)], id,
                     ReleasedTo(id, P[id].beneficiary, P[id].token, P[id].amount, score))
  {}

  lemma LogRefund(self: Address, P: Positions, id: Id, dst: Address)
    requires id in P && Live(P[id]) && (dst == P[id].payer || (dst == self && P[id].offerId != 0))
    ensures LogMoves(self, P, P[id := P[id].(status := Refunded)], id,
                     RefundedTo(id, P[id].offerId, dst, P[id].token, P[id].amount))
  {}

  lemma DepositFollows(dep: Deployment, s: State, tx: Tx, id: Id, token: Address, amount: uint256, beneficiary: Address)
    requires Sane(dep.self, s) && Sendable(dep, tx) && Deposit(dep, s, tx, id, token, amount, beneficiary).Success?
    ensures Follows(dep.self, s, Deposit(dep, s, tx, id, token, amount, beneficiary).value, id, 0,
                    Deposited(id, tx.sender, token, amount))
  {
    var s' := Deposit(dep, s, tx, id, token, amount, beneficiary).value;
    var p := Position(token, amount, tx.sender, beneficiary, 0, Escrowed);
    PullBringsExactly(dep, s.(positions := s.positions[id := p]), token, tx.sender, amount);
    DepositMoves(dep.self, s.positions, s.listings, s.tokens, s'.tokens, id, p);
    PlacePosition(dep.self, s.positions, s.listings, s.tokens, s'.tokens, id, p);
    LogNewPosition(dep.self, s.positions, id, p, Deposited(id, tx.sender, token, amount));
  }

  lemma LockListingFollows(dep: Deployment, s: State, tx: Tx, id: Id, o: Id, token: Address, amount: uint256)
    requires Sane(dep.self, s) && Sendable(dep, tx) && id !in s.positions
    requires LockListing(dep, s, tx, o, token, amount).Success?
    ensures Follows(dep.self, s, LockListing(dep, s, tx, o, token, amount).value, id, o,
                    ListingLocked(o, tx.sender, token, amount))
  {
    var s' := LockListing(dep, s, tx, o, token, amount).value;
    var l := if o in s.listings then TopUp(s.listings[o], tx.sender, token, amount).value
             else Listing(tx.sender, token, amount, 0, true);
    PullBringsExactly(dep, s.(listings := s.listings[o := l]), token, tx.sender, amount);
    assert o in s.listings ==> ListingOk(dep.self, s.listings[o], s.tokens);
    LockMoves(dep.self, s.positions, s.listings, s.tokens, s'.tokens, id, o, l, amount);
    PlaceListing(dep.self, s.positions, s.listings, s.tokens, s'.tokens, o, l);
    LogNothing(dep.self, s.positions, id, ListingLocked(o, tx.sender, token, amount));
  }

  // The state after a step that leaves the storage as given and logs one event.
  function After(s: State, P: Positions, L: Listings, T: Ledgers, used: set<Digest>, e: Event): State {
    s.(positions := P, listings := L, tokens := T, attestationUsed := used, log := s.log + [e])
  }

  // An unlocked listing keeps only what is bound.
  lemma UnlockListingLands(dep: Deployment, s: State, tx: Tx, o: Id) returns (T': Ledgers)
    requires TokensOk(dep.self, s.tokens) && o in s.listings && s.listings[o].token in s.tokens
             && s.listings[o].maker != dep.self
    requires UnlockListing(dep, s, tx, o).Success?
    requires s.listings[o].total - s.listings[o].bound <= Balance(dep.self, s.tokens, s.listings[o].token)
    ensures var l := s.listings[o];
            && l.bound <= l.total
            && Shifted(dep.self, s.tokens, T', l.token, l.bound - l.total)
            && OnlyPaid(dep.self, s.tokens, T', l.token, l.maker, l.total - l.bound)
            && UnlockListing(dep, s, tx, o).value ==
                 After(s, s.positions, s.listings[o := l.(open := false, total := l.bound)], T', s.attestationUsed,
                       ListingUnlocked(o, l.maker, l.token, l.total - l.bound))
  {
    var l := s.listings[o];
    T' := UnlockListing(dep, s, tx, o).value.tokens;
    if l.total > l.bound {
      PushPaysExactly(dep, s.(listings := s.listings[o := l.(open := false, total := l.bound)]), l.token, l.maker,
                      l.total - l.bound);
    } else {
      ShiftOne(dep.self, s.tokens, l.token, s.tokens[l.token]);
      assert T' == s.tokens;
    }
  }

  lemma UnlockListingFollows(self: Address, s: State, T': Ledgers, id: Id, o: Id)
    requires Sane(self, s) && id !in s.positions && o in s.listings && s.listings[o].bound <= s.listings[o].total
    requires Shifted(self, s.tokens, T', s.listings[o].token, s.listings[o].bound - s.listings[o].total)
    ensures var l := s.listings[o];
            var e := ListingUnlocked(o, l.maker, l.token, l.total - l.bound);
            Follows(self, s, After(s, s.positions, s.listings[o := l.(open := false, total := l.bound)], T',
                                   s.attestationUsed, e), id, o, e)
  {
    var l := s.listings[o];
    var l' := l.(open := false, total := l.bound);
    assert ListingOk(self, l, s.tokens);
    UnlockMoves(self, s.positions, s.listings, s.tokens, T', id, o, l');
    PlaceListing(self, s.positions, s.listings, s.tokens, T', o, l');
    LogNothing(self, s.positions, id, ListingUnlocked(o, l.maker, l.token, l.total - l.bound));
  }

  lemma BindFollows(dep: Deployment, s: State, id: Id, o: Id, amount: uint256, beneficiary: Address)
    requires Sane(dep.self, s) && BindListingLock(s, id, o, amount, beneficiary).Success?
    ensures Follows(dep.self, s, BindListingLock(s, id, o, amount, beneficiary).value, id, o,
                    ListingBound(o, id, amount))
  {
    var l := s.listings[o];
    var l' := l.(bound := l.bound + amount);
    var p := Position(l.token, amount, l.maker, beneficiary, o, Escrowed);
    assert ListingOk(dep.self, l, s.tokens);
    BindMoves(dep.self, s.positions, s.listings, s.tokens, id, o, p, l');
    PlaceListing(dep.self, s.positions, s.listings, s.tokens, s.tokens, o, l');
    PlacePosition(dep.self, s.positions, s.listings[o := l'], s.tokens, s.tokens, id, p);
    LogNewPosition(dep.self, s.positions, id, p, ListingBound(o, id, amount));
  }

  lemma RaiseDisputeFollows(dep: Deployment, s: State, tx: Tx, id: Id)
    requires Sane(dep.self, s) && RaiseDispute(s, tx, id).Success?
    ensures Follows(dep.self, s, RaiseDispute(s, tx, id).value, id, 0, DisputeRaised(id, tx.sender))
  {
    assert PositionOk(dep.self, s.positions[id], s.listings, s.tokens);
    DisputeMoves(dep.self, s.positions, s.listings, s.tokens, id, tx.sender);
    PlacePosition(dep.self, s.positions, s.listings, s.tokens, s.tokens, id, s.positions[id].(status := Disputed));
    LogDispute(dep.self, s.positions, id, DisputeRaised(id, tx.sender));
  }

  // The state in which an accepted attestation is carried out: it may already be marked used,
  // although its order is not settled yet.
  ghost predicate Accepted(s: State, used: State, id: Id) {
    && id in s.positions && Live(s.positions[id])
    && used == s.(attestationUsed := used.attestationUsed)
    && (forall d :: d in used.attestationUsed ==> d in s.attestationUsed || d.att.orderId == id)
  }

  // What carrying out an attestation needs to know about its position.
  predicate Payable(self: Address, s: State, used: State, id: Id) {
    && id in s.positions && s.positions[id].token in s.tokens
    && s.positions[id].amount <= Balance(self, s.tokens, s.positions[id].token)
    && used == s.(attestationUsed := used.attestationUsed)
  }

  // Paying out a position the contract can afford never fails, and pays the beneficiary.
  lemma PayOutLands(dep: Deployment, s: State, used: State, id: Id, score: nat) returns (T': Ledgers)
    requires TokensOk(dep.self, s.tokens) && Payable(dep.self, s, used, id)
    ensures var p := s.positions[id];
            && Shifted(dep.self, s.tokens, T', p.token, if p.beneficiary == dep.self then 0 else 0 - p.amount)
            && OnlyPaid(dep.self, s.tokens, T', p.token, p.beneficiary, p.amount)
            && PayOut(dep, used, id, score) ==
                 Success(After(s, s.positions[id := p.(status := Released)], s.listings, T', used.attestationUsed,
                               ReleasedTo(id, p.beneficiary, p.token, p.amount, score)))
  {
    var p := s.positions[id];
    PushPaysExactly(dep, used.(positions := s.positions[id := p.(status := Released)]), p.token, p.beneficiary,
                    p.amount);
    T' := PayOut(dep, used, id, score).value.tokens;
  }

  lemma PayOutFollows(self: Address, s: State, used: State, id: Id, score: nat, T': Ledgers)
    requires Sane(self, s) && Accepted(s, used, id)
    requires Shifted(self, s.tokens, T', s.positions[id].token,
                     if s.positions[id].beneficiary == self then 0 else 0 - s.positions[id].amount)
    ensures var p := s.positions[id]; var e := ReleasedTo(id, p.beneficiary, p.token, p.amount, score);
            Follows(self, s, After(s, s.positions[id := p.(status := Released)], s.listings, T', used.attestationUsed,
                                   e), id, 0, e)
  {
    assert PositionOk(self, s.positions[id], s.listings, s.tokens);
    ReleaseMoves(self, s.positions, s.listings, s.tokens, T', id, score);
    PlacePosition(self, s.positions, s.listings, s.tokens, T', id, s.positions[id].(status := Released));
    LogRelease(self, s.positions, id, score);
  }

  // A position from an open listing goes back to the listing: no token moves.
  lemma RefundToListingLands(dep: Deployment, s: State, used: State, id: Id)
    requires id in s.positions && used == s.(attestationUsed := used.attestationUsed)
    requires var o := s.positions[id].offerId;
             o != 0 && o in s.listings && s.listings[o].open && s.positions[id].amount <= s.listings[o].bound
    ensures var p := s.positions[id]; var l := s.listings[p.offerId];
            DoRefund(dep, used, id) ==
              Success(After(s, s.positions[id := p.(status := Refunded)],
                            s.listings[p.offerId := l.(bound := l.bound - p.amount)],
                            s.tokens, used.attestationUsed, RefundedTo(id, p.offerId, dep.self, p.token, p.amount)))
  {}

  lemma RefundToListingFollows(self: Address, s: State, used: State, id: Id)
    requires Sane(self, s) && Accepted(s, used, id)
    requires var o := s.positions[id].offerId;
             o != 0 && o in s.listings && s.positions[id].amount <= s.listings[o].bound && s.listings[o].open
    ensures var p := s.positions[id]; var o := p.offerId; var l := s.listings[o];
            var e := RefundedTo(id, o, self, p.token, p.amount);
            Follows(self, s, After(s, s.positions[id := p.(status := Refunded)],
                                   s.listings[o := l.(bound := l.bound - p.amount)],
                                   s.tokens, used.attestationUsed, e), id, o, e)
  {
    var p := s.positions[id];
    var l := s.listings[p.offerId];
    var l' := l.(bound := l.bound - p.amount);
    assert PositionOk(self, p, s.listings, s.tokens) && ListingOk(self, l, s.tokens);
    RefundToListingMoves(self, s.positions, s.listings, s.tokens, id);
    PlaceListing(self, s.positions, s.listings, s.tokens, s.tokens, p.offerId, l');
    PlacePosition(self, s.positions, s.listings[p.offerId := l'], s.tokens, s.tokens, id, p.(status := Refunded));
    LogRefund(self, s.positions, id, self);
  }

  // A deposit goes back to whoever paid it.
  lemma RefundOfDepositLands(dep: Deployment, s: State, used: State, id: Id) returns (T': Ledgers)
    requires TokensOk(dep.self, s.tokens) && Payable(dep.self, s, used, id)
    requires s.positions[id].offerId == 0 && s.positions[id].payer != dep.self
    ensures var p := s.positions[id];
            && Shifted(dep.self, s.tokens, T', p.token, 0 - p.amount)
            && OnlyPaid(dep.self, s.tokens, T', p.token, p.payer, p.amount)
            && DoRefund(dep, used, id) ==
                 Success(After(s, s.positions[id := p.(status := Refunded)], s.listings, T', used.attestationUsed,
                               RefundedTo(id, 0, p.payer, p.token, p.amount)))
  {
    var p := s.positions[id];
    PushPaysExactly(dep, used.(positions := s.positions[id := p.(status := Refunded)]), p.token, p.payer, p.amount);
    T' := DoRefund(dep, used, id).value.tokens;
  }

  lemma RefundOfDepositFollows(self: Address, s: State, used: State, id: Id, T': Ledgers)
    requires Sane(self, s) && Accepted(s, used, id) && s.positions[id].offerId == 0
    requires Shifted(self, s.tokens, T', s.positions[id].token, 0 - s.positions[id].amount)
    ensures var p := s.positions[id]; var e := RefundedTo(id, 0, p.payer, p.token, p.amount);
            Follows(self, s, After(s, s.positions[id := p.(status := Refunded)], s.listings, T', used.attestationUsed,
                                   e), id, 0, e)
  {
    assert PositionOk(self, s.positions[id], s.listings, s.tokens);
    RefundOfDepositMoves(self, s.positions, s.listings, s.tokens, T', id);
    PlacePosition(self, s.positions, s.listings, s.tokens, T', id, s.positions[id].(status := Refunded));
    LogRefund(self, s.positions, id, s.positions[id].payer);
  }

  // A position from a listing that was taken down goes back to the maker.
  lemma RefundToMakerLands(dep: Deployment, s: State, used: State, id: Id) returns (T': Ledgers)
    requires TokensOk(dep.self, s.tokens) && Payable(dep.self, s, used, id) && s.positions[id].payer != dep.self
    requires var o := s.positions[id].offerId;
             && o != 0 && o in s.listings && !s.listings[o].open
             && s.positions[id].amount <= s.listings[o].bound <= s.listings[o].total
    ensures var p := s.positions[id]; var l := s.listings[p.offerId];
            && Shifted(dep.self, s.tokens, T', p.token, 0 - p.amount)
            && OnlyPaid(dep.self, s.tokens, T', p.token, p.payer, p.amount)
            && DoRefund(dep, used, id) ==
                 Success(After(s, s.positions[id := p.(status := Refunded)],
                               s.listings[p.offerId := l.(total := l.total - p.amount, bound := l.bound - p.amount)],
                               T', used.attestationUsed, RefundedTo(id, p.offerId, p.payer, p.token, p.amount)))
  {
    var p := s.positions[id];
    var l := s.listings[p.offerId];
    var l' := l.(total := l.total - p.amount, bound := l.bound - p.amount);
    PushPaysExactly(dep, used.(positions := s.positions[id := p.(status := Refunded)],
                               listings := s.listings[p.offerId := l']),
                    p.token, p.payer, p.amount);
    T' := DoRefund(dep, used, id).value.tokens;
  }

  lemma RefundToMakerFollows(self: Address, s: State, used: State, id: Id, T': Ledgers)
    requires Sane(self, s) && Accepted(s, used, id)
    requires var o := s.positions[id].offerId;
             && o != 0 && o in s.listings && !s.listings[o].open
             && s.positions[id].amount <= s.listings[o].bound <= s.listings[o].total
    requires Shifted(self, s.tokens, T', s.positions[id].token, 0 - s.positions[id].amount)
    ensures var p := s.positions[id]; var o := p.offerId; var l := s.listings[o];
            var e := RefundedTo(id, o, p.payer, p.token, p.amount);
            Follows(self, s, After(s, s.positions[id := p.(status := Refunded)],
                                   s.listings[o := l.(total := l.total - p.amount, bound := l.bound - p.amount)],
                                   T', used.attestationUsed, e), id, o, e)
  {
    var p := s.positions[id];
    var l := s.listings[p.offerId];
    var l' := l.(total := l.total - p.amount, bound := l.bound - p.amount);
    assert PositionOk(self, p, s.listings, s.tokens) && ListingOk(self, l, s.tokens);
    RefundToMakerMoves(self, s.positions, s.listings, s.tokens, T', id);
    PlaceListing(self, s.positions, s.listings, s.tokens, T', p.offerId, l');
    PlacePosition(self, s.positions, s.listings[p.offerId := l'], T', T', id, p.(status := Refunded));
    LogRefund(self, s.positions, id, p.payer);
  }

  lemma TokenCallFollows(dep: Deployment, s: State, token: Address, after: Result<Ledger, TokenError>, id: Id)
    requires Sane(dep.self, s) && id !in s.positions && token in s.tokens && TokenCall(dep, s, token, after).Success?
    requires LedgerOk(dep.self, after.value)
    requires BalanceOf(after.value, dep.self) >= BalanceOf(s.tokens[token], dep.self)
    ensures Follows(dep.self, s, TokenCall(dep, s, token, after).value, id, 0,
                    Credited(token, BalanceOf(after.value, dep.self) - BalanceOf(s.tokens[token], dep.self)))
  {
    var s' := TokenCall(dep, s, token, after).value;
    var change := BalanceOf(after.value, dep.self) - BalanceOf(s.tokens[token], dep.self);
    ShiftOne(dep.self, s.tokens, token, after.value);
    CreditMoves(dep.self, s.positions, s.listings, s.tokens, s'.tokens, id, token, change);
    KeepPlaces(dep.self, s.positions, s.listings, s.tokens, s'.tokens);
    LogNothing(dep.self, s.positions, id, Credited(token, change));
  }

  lemma KeepPlaces(self: Address, P: Positions, L: Listings, T: Ledgers, T': Ledgers)
    requires Placed(self, P, L, T) && T'.Keys == T.Keys
    ensures Placed(self, P, L, T')
  {
    forall x | x in P ensures PositionOk(self, P[x], L, T') {
      assert PositionOk(self, P[x], L, T);
    }
    forall o | o in L ensures ListingOk(self, L[o], T') {
      assert ListingOk(self, L[o], T);
    }
  }

  // ── every call keeps the invariant ──

  // What the contract owes for one order or one listing, it can pay.
  lemma CanPay(dep: Deployment, s: State, id: Id, o: Id, t: Address)
    requires Inv(dep, s)
    ensures LiveOne(s.positions, t, id) + FreeOne(s.listings, t, o) <= Balance(dep.self, s.tokens, t)
  {
    OwedCovers(dep.self, s.positions, s.listings, s.tokens, id, o, t);
    BalanceCovers(dep.self, s.positions, s.listings, s.tokens, s.log, t);
  }

  // What a listing has bound covers each of its positions that was not refunded.
  lemma BoundCovers(dep: Deployment, s: State, id: Id)
    requires Inv(dep, s) && id in s.positions && s.positions[id].offerId != 0 && s.positions[id].status != Refunded
    ensures s.positions[id].offerId in s.listings
    ensures s.positions[id].amount <= s.listings[s.positions[id].offerId].bound
            <= s.listings[s.positions[id].offerId].total
  {
    var o := s.positions[id].offerId;
    assert PositionOk(dep.self, s.positions[id], s.listings, s.tokens);
    assert ListingOk(dep.self, s.listings[o], s.tokens);
    assert ListingBooks(dep.self, s.positions, s.listings, s.log, o);
    BoundSumCovers(s.positions, id, o);
  }

  lemma UnlockListingKeeps(dep: Deployment, s: State, tx: Tx, o: Id)
    requires Inv(dep, s) && UnlockListing(dep, s, tx, o).Success?
    ensures Inv(dep, UnlockListing(dep, s, tx, o).value)
  {
    var l := s.listings[o];
    assert ListingOk(dep.self, l, s.tokens);
    var id := UnusedId(s.positions);
    CanPay(dep, s, id, o, l.token);
    var T' := UnlockListingLands(dep, s, tx, o);
    UnlockListingFollows(dep.self, s, T', id, o);
    InvFollows(dep, s, UnlockListing(dep, s, tx, o).value, id, o,
               ListingUnlocked(o, l.maker, l.token, l.total - l.bound));
  }

  // Paying out a live position never fails, and keeps the invariant.
  lemma PayOutKeeps(dep: Deployment, s: State, used: State, id: Id, score: nat) returns (T': Ledgers)
    requires Inv(dep, s) && Accepted(s, used, id)
    ensures PayOut(dep, used, id, score).Success?
    ensures var p, s' := s.positions[id], PayOut(dep, used, id, score).value;
            && Inv(dep, s')
            && s' == After(s, s.positions[id := p.(status := Released)], s.listings, T', used.attestationUsed,
                           ReleasedTo(id, p.beneficiary, p.token, p.amount, score))
            && OnlyPaid(dep.self, s.tokens, T', p.token, p.beneficiary, p.amount)
  {
    var p := s.positions[id];
    assert PositionOk(dep.self, p, s.listings, s.tokens);
    CanPay(dep, s, id, 0, p.token);
    SpareFreeNonNegative(dep, s, 0, p.token);
    T' := PayOutLands(dep, s, used, id, score);
    PayOutFollows(dep.self, s, used, id, score, T');
    InvFollows(dep, s, PayOut(dep, used, id, score).value, id, 0,
               ReleasedTo(id, p.beneficiary, p.token, p.amount, score));
  }

  lemma SpareFreeNonNegative(dep: Deployment, s: State, o: Id, t: Address)
    requires Placed(dep.self, s.positions, s.listings, s.tokens)
    ensures FreeOne(s.listings, t, o) >= 0
  {
    assert o in s.listings ==> ListingOk(dep.self, s.listings[o], s.tokens);
  }

  // Whom a refund goes to: the listing while it is open, which leaves the tokens with the
  // contract, and otherwise whoever paid.
  function RefundeeOf(self: Address, s: State, p: Position): Address {
    if p.offerId != 0 && p.offerId in s.listings && s.listings[p.offerId].open then self else p.payer
  }

  // A refund frees its slice while the listing is open, takes it out of the listing's total once it was
  // taken down, and touches no listing when the position came from a deposit.
  function ListingsAfterRefund(L: Listings, p: Position): Listings {
    if p.offerId == 0 || p.offerId !in L || L[p.offerId].bound < p.amount then L
    else
      var l := L[p.offerId];
      if l.open then L[p.offerId := l.(bound := l.bound - p.amount)]
      else if l.total < p.amount then L
      else L[p.offerId := l.(total := l.total - p.amount, bound := l.bound - p.amount)]
  }

  // Refunding a live position never fails, pays the refundee and keeps the invariant.
  lemma DoRefundKeeps(dep: Deployment, s: State, used: State, id: Id)
    requires Inv(dep, s) && Accepted(s, used, id)
    ensures DoRefund(dep, used, id).Success?
    ensures var p, s' := s.positions[id], DoRefund(dep, used, id).value;
            && Inv(dep, s')
            && s'.positions == s.positions[id := p.(status := Refunded)]
            && s'.log == s.log + [RefundedTo(id, p.offerId, RefundeeOf(dep.self, s, p), p.token, p.amount)]
            && s'.listings == ListingsAfterRefund(s.listings, p)
            && s' == used.(positions := s'.positions, listings := s'.listings, tokens := s'.tokens, log := s'.log)
            && OnlyPaid(dep.self, s.tokens, s'.tokens, p.token, RefundeeOf(dep.self, s, p), p.amount)
  {
    var p := s.positions[id];
    assert PositionOk(dep.self, p, s.listings, s.tokens);
    CanPay(dep, s, id, 0, p.token);
    SpareFreeNonNegative(dep, s, 0, p.token);
    if p.offerId == 0 {
      var T' := RefundOfDepositLands(dep, s, used, id);
      RefundOfDepositFollows(dep.self, s, used, id, T');
      InvFollows(dep, s, DoRefund(dep, used, id).value, id, 0, RefundedTo(id, 0, p.payer, p.token, p.amount));
    } else {
      BoundCovers(dep, s, id);
      if s.listings[p.offerId].open {
        RefundToListingLands(dep, s, used, id);
        RefundToListingFollows(dep.self, s, used, id);
        InvFollows(dep, s, DoRefund(dep, used, id).value, id, p.offerId,
                   RefundedTo(id, p.offerId, dep.self, p.token, p.amount));
      } else {
        var T' := RefundToMakerLands(dep, s, used, id);
        RefundToMakerFollows(dep.self, s, used, id, T');
        InvFollows(dep, s, DoRefund(dep, used, id).value, id, p.offerId,
                   RefundedTo(id, p.offerId, p.payer, p.token, p.amount));
      }
    }
  }

  lemma AttestedKeeps(dep: Deployment, s: State, tx: Tx, call: Call)
    requires Inv(dep, s) && Step(dep, s, tx, call).Success?
    requires call.ReleaseCall? || call.RefundCall? || call.ResolveDisputeCall?
    ensures Inv(dep, Step(dep, s, tx, call).value)
  {
    var used := Consume(dep, s, tx, call.att, call.sigs).value;
    if call.att.verdict == ToRelease {
      var _ := PayOutKeeps(dep, s, used, call.att.orderId, call.att.score);
    } else {
      DoRefundKeeps(dep, s, used, call.att.orderId);
    }
  }

  // What a call on a token contract leaves of its ledger.
  function LedgerAfter(l: Ledger, sender: Address, call: Call): Result<Ledger, TokenError>
    requires call.TokenTransferCall? || call.TokenTransferFromCall? || call.TokenApproveCall? || call.TokenMintCall?
  {
    match call
    case TokenTransferCall(_, dst, amount) => Transfer(l, sender, dst, amount)
    case TokenTransferFromCall(_, src, dst, amount) => TransferFrom(l, sender, src, dst, amount)
    case TokenApproveCall(_, spender, amount) => Success(Approve(l, sender, spender, amount))
    case TokenMintCall(_, dst, amount) => Mint(l, dst, amount)
  }

  lemma TokenCallKeeps(dep: Deployment, s: State, token: Address, after: Result<Ledger, TokenError>)
    requires Inv(dep, s) && token in s.tokens && TokenCall(dep, s, token, after).Success?
    requires LedgerOk(dep.self, after.value)
    requires BalanceOf(after.value, dep.self) >= BalanceOf(s.tokens[token], dep.self)
    ensures Inv(dep, TokenCall(dep, s, token, after).value)
  {
    var id := UnusedId(s.positions);
    TokenCallFollows(dep, s, token, after, id);
    InvFollows(dep, s, TokenCall(dep, s, token, after).value, id, 0,
               Credited(token, BalanceOf(after.value, dep.self) - BalanceOf(s.tokens[token], dep.self)));
  }

  lemma TokenCallsKeep(dep: Deployment, s: State, tx: Tx, call: Call)
    requires Inv(dep, s) && Sendable(dep, tx) && Step(dep, s, tx, call).Success?
    requires call.TokenTransferCall? || call.TokenTransferFromCall? || call.TokenApproveCall? || call.TokenMintCall?
    ensures Inv(dep, Step(dep, s, tx, call).value)
  {
    if call.token in s.tokens {
      var l := s.tokens[call.token];
      assert LedgerOk(dep.self, l);
      var after := LedgerAfter(l, tx.sender, call);
      assert Step(dep, s, tx, call) == TokenCall(dep, s, call.token, after);
      OutsiderLeavesLedgerOk(dep, l, tx, call, after);
      TokenCallKeeps(dep, s, call.token, after);
    }
  }

  // Nobody else can lower the contract's balance or spend for it.
  lemma OutsiderLeavesLedgerOk(dep: Deployment, l: Ledger, tx: Tx, call: Call, after: Result<Ledger, TokenError>)
    requires LedgerOk(dep.self, l) && Sendable(dep, tx) && after.Success?
    requires call.TokenTransferCall? || call.TokenTransferFromCall? || call.TokenApproveCall? || call.TokenMintCall?
    requires after == LedgerAfter(l, tx.sender, call)
    ensures LedgerOk(dep.self, after.value) && BalanceOf(after.value, dep.self) >= BalanceOf(l, dep.self)
  {
    match call
    case TokenTransferCall(_, dst, amount) =>
      TransferSound(l, tx.sender, dst, amount);
      StillNoApprovals(dep.self, l, after.value);
    case TokenTransferFromCall(_, src, dst, amount) =>
      TransferFromSound(l, tx.sender, src, dst, amount);
      assert src == dep.self ==> Allowance(l, dep.self, tx.sender) == 0;
      OutsiderTransferFrom(dep.self, l, tx.sender, src, dst, amount);
    case TokenApproveCall(_, spender, amount) =>
      ApproveSound(l, tx.sender, spender, amount);
      StillNoApprovals(dep.self, l, after.value);
    case TokenMintCall(_, dst, amount) =>
      MintSound(l, dst, amount);
      StillNoApprovals(dep.self, l, after.value);
  }

  lemma OutsiderTransferFrom(self: Address, l: Ledger, spender: Address, src: Address, dst: Address, amount: uint256)
    requires NoApprovals(self, l) && TransferFrom(l, spender, src, dst, amount).Success?
    ensures var l' := TransferFrom(l, spender, src, dst, amount).value;
            NoApprovals(self, l') && BalanceOf(l', self) >= BalanceOf(l, self)
  {
    var l' := TransferFrom(l, spender, src, dst, amount).value;
    forall x ensures Allowance(l', self, x) == 0 {
      assert Allowance(l, self, x) == 0;
    }
    assert Allowance(l, self, spender) == 0;
  }

  lemma StepKeeps(dep: Deployment, s: State, tx: Tx, call: Call)
    requires Inv(dep, s) && Sendable(dep, tx) && Step(dep, s, tx, call).Success?
    ensures Inv(dep, Step(dep, s, tx, call).value)
  {
    match call
    case SetSignersCall(_, _, _) => GovernanceKeeps(dep, s, tx, call);
    case SetDepositsPausedCall(_) => GovernanceKeeps(dep, s, tx, call);
    case TransferOwnershipCall(_) => GovernanceKeeps(dep, s, tx, call);
    case DepositCall(id, token, amount, beneficiary) =>
      DepositFollows(dep, s, tx, id, token, amount, beneficiary);
      InvFollows(dep, s, Step(dep, s, tx, call).value, id, 0, Deposited(id, tx.sender, token, amount));
    case LockListingCall(o, token, amount) =>
      var id := UnusedId(s.positions);
      LockListingFollows(dep, s, tx, id, o, token, amount);
      InvFollows(dep, s, Step(dep, s, tx, call).value, id, o, ListingLocked(o, tx.sender, token, amount));
    case UnlockListingCall(o) => UnlockListingKeeps(dep, s, tx, o);
    case BindListingLockCall(id, o, amount, beneficiary) =>
      BindFollows(dep, s, id, o, amount, beneficiary);
      InvFollows(dep, s, Step(dep, s, tx, call).value, id, o, ListingBound(o, id, amount));
    case RaiseDisputeCall(id) =>
      RaiseDisputeFollows(dep, s, tx, id);
      InvFollows(dep, s, Step(dep, s, tx, call).value, id, 0, DisputeRaised(id, tx.sender));
    case ReleaseCall(_, _) => AttestedKeeps(dep, s, tx, call);
    case RefundCall(_, _) => AttestedKeeps(dep, s, tx, call);
    case ResolveDisputeCall(_, _) => AttestedKeeps(dep, s, tx, call);
    case TokenTransferCall(_, _, _) => TokenCallsKeep(dep, s, tx, call);
    case TokenTransferFromCall(_, _, _, _) => TokenCallsKeep(dep, s, tx, call);
    case TokenApproveCall(_, _, _) => TokenCallsKeep(dep, s, tx, call);
    case TokenMintCall(_, _, _) => TokenCallsKeep(dep, s, tx, call);
  }
}
