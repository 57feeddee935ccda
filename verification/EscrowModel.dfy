// What each external call of AtaraEscrow does to the chain's state, as a function: either the
// state after the call, or the error it reverts with.
module EscrowModel {
  import opened Results
  import opened Erc20

  // A bytes32 identifier. Zero is bytes32(0).
  type Id = nat

  datatype Status = Escrowed | Released | Refunded | Disputed

  // An order's position. An order that never had one is not a key of the positions map.
  datatype Position = Position(
    token: Address, amount: uint256, payer: Address, beneficiary: Address, offerId: Id, status: Status)

  datatype Listing = Listing(maker: Address, token: Address, total: uint256, bound: uint256, open: bool)

  datatype Verdict = ToRelease | ToRefund | Hold

  datatype Attestation = Attestation(orderId: Id, verdict: Verdict, score: nat, nonce: nat, deadline: nat)

  // The EIP-712 domain and digest. Hashing is taken to be injective, so a digest is what it hashes.
  datatype Domain = Domain(chainId: nat, verifyingContract: Address)
  datatype Digest = Digest(domain: Domain, att: Attestation)

  // A 65-byte signature split into its parts.
  datatype Signature = Signature(r: nat, s: nat, v: nat)

  const HALF_CURVE_ORDER: nat := 0x7FFF_FFFF_FFFF_FFFF_FFFF_FFFF_FFFF_FFFF_5D57_6E73_57A4_501D_DFE9_2F46_681B_20A0

  // What never changes about one deployment: its address, and the chain's ecrecover, which
  // answers zero for an invalid signature.
  datatype Deployment = Deployment(self: Address, ecrecover: (Digest, nat, nat, nat) -> Address)

  // One transaction: who sends it, in which block time, on which chain.
  datatype Tx = Tx(sender: Address, now: nat, chainId: nat)

  // The contract's events, with the token and the offer written into each so that totals can be
  // read off the log alone. `Credited` is the Transfer event of a token call made by somebody
  // else, with the change it makes to the contract's own balance.
  datatype Event =
    | Deposited(orderId: Id, payer: Address, token: Address, amount: nat)
    | ListingLocked(offerId: Id, maker: Address, token: Address, amount: nat)
    | ListingUnlocked(offerId: Id, dst: Address, token: Address, returned: nat)
    | ListingBound(offerId: Id, orderId: Id, amount: nat)
    | ReleasedTo(orderId: Id, dst: Address, token: Address, amount: nat, score: nat)
    | RefundedTo(orderId: Id, offerId: Id, dst: Address, token: Address, amount: nat)
    | DisputeRaised(orderId: Id, raiser: Address)
    | Credited(token: Address, change: int)

  datatype Error =
    | NotOwner | NotParty | DepositsArePaused | ZeroAmount | ZeroAddress | OrderExists | NoPosition
    | NotEscrowed | NotDisputed | ListingNotOpen | ListingInsufficient | AttestationExpired
    | AttestationReplayed | WrongVerdict | ScoreTooLow | NotEnoughSigners | BadSignature
    | SignersUnsorted | TransferFailed | BadThreshold
    | Panic // checked arithmetic, or a call that needs code at an address without any

  datatype State = State(
    owner: Address,
    isSigner: set<Address>,
    signerList: seq<Address>,
    threshold: nat,
    minScore: nat,
    depositsPaused: bool,
    positions: map<Id, Position>,
    listings: map<Id, Listing>,
    attestationUsed: set<Digest>,
    cachedDomain: Domain,
    cachedChainId: nat,
    tokens: map<Address, Ledger>,
    log: seq<Event>)

  type Outcome = Result<State, Error>

  // ── governance ──

  // The first thing wrong with a signer list, given the addresses already accepted.
  function ListFault(signers: seq<Address>, seen: set<Address>): Option<Error> {
    if signers == [] then None
    else if signers[0] == 0 then Some(ZeroAddress)
    else if signers[0] in seen then Some(BadSignature)
    else ListFault(signers[1..], seen + {signers[0]})
  }

  function Addresses(signers: seq<Address>): set<Address> {
    set a | a in signers
  }

  function SettingsFault(signers: seq<Address>, threshold: nat, minScore: nat): Option<Error> {
    if threshold == 0 || threshold > |signers| then Some(BadThreshold)
    else if minScore > 100 then Some(ScoreTooLow)
    else ListFault(signers, {})
  }

  function Deploy(dep: Deployment, tx: Tx, signers: seq<Address>, threshold: nat, minScore: nat,
                  tokens: map<Address, Ledger>): Outcome {
    match SettingsFault(signers, threshold, minScore)
    case Some(e) => Failure(e)
    case None =>
      Success(State(tx.sender, Addresses(signers), signers, threshold, minScore, false, map[], map[], {},
                    Domain(tx.chainId, dep.self), tx.chainId, tokens, []))
  }

  function SetSigners(s: State, tx: Tx, signers: seq<Address>, threshold: nat, minScore: nat): Outcome {
    if tx.sender != s.owner then Failure(NotOwner) else
      match SettingsFault(signers, threshold, minScore)
      case Some(e) => Failure(e)
      case None => Success(s.(isSigner := Addresses(signers), signerList := signers,
                              threshold := threshold, minScore := minScore))
  }

  function SetDepositsPaused(s: State, tx: Tx, paused: bool): Outcome {
    if tx.sender != s.owner then Failure(NotOwner) else Success(s.(depositsPaused := paused))
  }

  function TransferOwnership(s: State, tx: Tx, dst: Address): Outcome {
    if tx.sender != s.owner then Failure(NotOwner)
    else if dst == 0 then Failure(ZeroAddress)
    else Success(s.(owner := dst))
  }

  // ── token movements ──

  // transferFrom into the contract, accepted only if exactly `amount` arrived.
  function Pull(dep: Deployment, s: State, token: Address, src: Address, amount: uint256): Outcome {
    if token !in s.tokens then Failure(Panic) else
      match TransferFrom(s.tokens[token], dep.self, src, dep.self, amount)
      case Failure(_) => Failure(TransferFailed)
      case Success(l) =>
        if BalanceOf(l, dep.self) - BalanceOf(s.tokens[token], dep.self) != amount then Failure(TransferFailed)
        else Success(s.(tokens := s.tokens[token := l]))
  }

  // A low-level transfer out. Calling an address without code succeeds and moves nothing.
  function Push(dep: Deployment, s: State, token: Address, dst: Address, amount: uint256): Outcome {
    if token !in s.tokens then Success(s) else
      match Transfer(s.tokens[token], dep.self, dst, amount)
      case Failure(_) => Failure(TransferFailed)
      case Success(l) => Success(s.(tokens := s.tokens[token := l]))
  }

  function Emit(s: State, e: Event): State {
    s.(log := s.log + [e])
  }

  // ── money in ──

  function Deposit(dep: Deployment, s: State, tx: Tx, orderId: Id, token: Address, amount: uint256,
                   beneficiary: Address): Outcome {
    if s.depositsPaused then Failure(DepositsArePaused)
    else if amount == 0 then Failure(ZeroAmount)
    else if token == 0 || beneficiary == 0 then Failure(ZeroAddress)
    else if orderId in s.positions then Failure(OrderExists)
    else
      var p := Position(token, amount, tx.sender, beneficiary, 0, Escrowed);
      var paid :- Pull(dep, s.(positions := s.positions[orderId := p]), token, tx.sender, amount);
      Success(Emit(paid, Deposited(orderId, tx.sender, token, amount)))
  }

  function LockListing(dep: Deployment, s: State, tx: Tx, offerId: Id, token: Address, amount: uint256): Outcome {
    if s.depositsPaused then Failure(DepositsArePaused)
    else if amount == 0 then Failure(ZeroAmount)
    else if token == 0 then Failure(ZeroAddress)
    else
      var l :- if offerId !in s.listings then Success(Listing(tx.sender, token, amount, 0, true))
               else TopUp(s.listings[offerId], tx.sender, token, amount);
      var paid :- Pull(dep, s.(listings := s.listings[offerId := l]), token, tx.sender, amount);
      Success(Emit(paid, ListingLocked(offerId, tx.sender, token, amount)))
  }

  function TopUp(l: Listing, sender: Address, token: Address, amount: uint256): Result<Listing, Error> {
    if l.maker != sender || l.token != token || !l.open then Failure(ListingNotOpen)
    else if l.total + amount > MAX_UINT256 then Failure(Panic)
    else Success(l.(total := l.total + amount))
  }

  function UnlockListing(dep: Deployment, s: State, tx: Tx, offerId: Id): Outcome {
    if offerId !in s.listings then Failure(ListingNotOpen) else
      var l := s.listings[offerId];
      if l.maker != tx.sender || !l.open then Failure(ListingNotOpen)
      else if l.bound > l.total then Failure(Panic)
      else
        var free := l.total - l.bound;
        var closed := s.(listings := s.listings[offerId := l.(open := false, total := l.bound)]);
        var paid :- if free > 0 then Push(dep, closed, l.token, l.maker, free) else Success(closed);
        Success(Emit(paid, ListingUnlocked(offerId, l.maker, l.token, free)))
  }

  function BindListingLock(s: State, orderId: Id, offerId: Id, amount: uint256, beneficiary: Address): Outcome {
    if amount == 0 then Failure(ZeroAmount)
    else if beneficiary == 0 then Failure(ZeroAddress)
    else if orderId in s.positions then Failure(OrderExists)
    else if offerId !in s.listings || !s.listings[offerId].open then Failure(ListingNotOpen)
    else
      var l := s.listings[offerId];
      if l.bound > l.total then Failure(Panic)
      else if l.total - l.bound < amount then Failure(ListingInsufficient)
      else
        var p := Position(l.token, amount, l.maker, beneficiary, offerId, Escrowed);
        Success(Emit(s.(listings := s.listings[offerId := l.(bound := l.bound + amount)],
                        positions := s.positions[orderId := p]),
                     ListingBound(offerId, orderId, amount)))
  }

  function ListingAvailable(s: State, offerId: Id): int {
    if offerId in s.listings && s.listings[offerId].open
    then s.listings[offerId].total - s.listings[offerId].bound
    else 0
  }

  // ── disputes ──

  function RaiseDispute(s: State, tx: Tx, orderId: Id): Outcome {
    if orderId !in s.positions then Failure(NoPosition) else
      var p := s.positions[orderId];
      if p.status != Escrowed then Failure(NotEscrowed)
      else if tx.sender != p.payer && tx.sender != p.beneficiary then Failure(NotParty)
      else Success(Emit(s.(positions := s.positions[orderId := p.(status := Disputed)]),
                        DisputeRaised(orderId, tx.sender)))
  }

  // ── attestations ──

  function DomainSeparator(dep: Deployment, s: State, tx: Tx): Domain {
    if tx.chainId == s.cachedChainId then s.cachedDomain else Domain(tx.chainId, dep.self)
  }

  function HashAttestation(dep: Deployment, s: State, tx: Tx, att: Attestation): Digest {
    Digest(DomainSeparator(dep, s, tx), att)
  }

  // The signer of a signature, or zero: high s values and recovery ids other than 27 and 28 are refused.
  function Recover(dep: Deployment, d: Digest, sig: Signature): Address {
    var v := if sig.v < 27 then sig.v + 27 else sig.v;
    if sig.s > HALF_CURVE_ORDER || (v != 27 && v != 28) then 0 else dep.ecrecover(d, v, sig.r, sig.s)
  }

  function RecoverAll(dep: Deployment, d: Digest, sigs: seq<Signature>): (rs: seq<Address>)
    ensures |rs| == |sigs|
    ensures forall i :: 0 <= i < |sigs| ==> rs[i] == Recover(dep, d, sigs[i])
  {
    seq(|sigs|, i requires 0 <= i < |sigs| => Recover(dep, d, sigs[i]))
  }

  // The first recovered address that cannot be counted, after `last`.
  function QuorumFault(recovered: seq<Address>, last: Address, isSigner: set<Address>): Option<Error> {
    if recovered == [] then None
    else if recovered[0] == 0 then Some(BadSignature)
    else if recovered[0] <= last then Some(SignersUnsorted)
    else if recovered[0] !in isSigner then Some(BadSignature)
    else QuorumFault(recovered[1..], recovered[0], isSigner)
  }

  // Checks an attestation and marks it used.
  function Consume(dep: Deployment, s: State, tx: Tx, att: Attestation, sigs: seq<Signature>): Outcome {
    var d := HashAttestation(dep, s, tx, att);
    if tx.now > att.deadline then Failure(AttestationExpired)
    else if d in s.attestationUsed then Failure(AttestationReplayed)
    else if |sigs| < s.threshold then Failure(NotEnoughSigners)
    else match QuorumFault(RecoverAll(dep, d, sigs), 0, s.isSigner)
      case Some(e) => Failure(e)
      case None => Success(s.(attestationUsed := s.attestationUsed + {d}))
  }

  // ── money out ──

  function PayOut(dep: Deployment, s: State, orderId: Id, score: nat): Outcome
    requires orderId in s.positions
  {
    var p := s.positions[orderId];
    var paid :- Push(dep, s.(positions := s.positions[orderId := p.(status := Released)]), p.token, p.beneficiary,
                     p.amount);
    Success(Emit(paid, ReleasedTo(orderId, p.beneficiary, p.token, p.amount, score)))
  }

  function DoRefund(dep: Deployment, s: State, orderId: Id): Outcome
    requires orderId in s.positions
  {
    var p := s.positions[orderId];
    var marked := s.(positions := s.positions[orderId := p.(status := Refunded)]);
    if p.offerId == 0 then PayBack(dep, marked, orderId, p)
    else if p.offerId !in s.listings then Failure(Panic)
    else
      var l := s.listings[p.offerId];
      if l.bound < p.amount then Failure(Panic)
      else if l.open then
        Success(Emit(marked.(listings := s.listings[p.offerId := l.(bound := l.bound - p.amount)]),
                     RefundedTo(orderId, p.offerId, dep.self, p.token, p.amount)))
      else if l.total < p.amount then Failure(Panic)
      else PayBack(dep,
                   marked.(listings :=
                     s.listings[p.offerId := l.(total := l.total - p.amount, bound := l.bound - p.amount)]),
                   orderId, p)
  }

  function PayBack(dep: Deployment, s: State, orderId: Id, p: Position): Outcome {
    var paid :- Push(dep, s, p.token, p.payer, p.amount);
    Success(Emit(paid, RefundedTo(orderId, p.offerId, p.payer, p.token, p.amount)))
  }

  function Release(dep: Deployment, s: State, tx: Tx, att: Attestation, sigs: seq<Signature>): Outcome {
    if att.orderId !in s.positions then Failure(NoPosition)
    else if s.positions[att.orderId].status != Escrowed then Failure(NotEscrowed)
    else if att.verdict != ToRelease then Failure(WrongVerdict)
    else if att.score < s.minScore then Failure(ScoreTooLow)
    else
      var used :- Consume(dep, s, tx, att, sigs);
      PayOut(dep, used, att.orderId, att.score)
  }

  function Refund(dep: Deployment, s: State, tx: Tx, att: Attestation, sigs: seq<Signature>): Outcome {
    if att.orderId !in s.positions then Failure(NoPosition)
    else if s.positions[att.orderId].status != Escrowed then Failure(NotEscrowed)
    else if att.verdict != ToRefund then Failure(WrongVerdict)
    else
      var used :- Consume(dep, s, tx, att, sigs);
      DoRefund(dep, used, att.orderId)
  }

  function ResolveDispute(dep: Deployment, s: State, tx: Tx, att: Attestation, sigs: seq<Signature>): Outcome {
    if att.orderId !in s.positions then Failure(NoPosition)
    else if s.positions[att.orderId].status != Disputed then Failure(NotDisputed)
    else
      var used :- Consume(dep, s, tx, att, sigs);
      match att.verdict
      case ToRelease =>
        if att.score < s.minScore then Failure(ScoreTooLow) else PayOut(dep, used, att.orderId, att.score)
      case ToRefund => DoRefund(dep, used, att.orderId)
      case Hold => Failure(WrongVerdict)
  }

  // ── calls other people make on the token contracts ──

  function TokenCall(dep: Deployment, s: State, token: Address, after: Result<Ledger, TokenError>): Outcome
    requires token in s.tokens
  {
    match after
    case Failure(_) => Failure(TransferFailed)
    case Success(l) =>
      Success(Emit(s.(tokens := s.tokens[token := l]),
                   Credited(token, BalanceOf(l, dep.self) - BalanceOf(s.tokens[token], dep.self))))
  }

  // ── one transaction ──

  datatype Call =
    | SetSignersCall(signers: seq<Address>, threshold: nat, minScore: nat)
    | SetDepositsPausedCall(paused: bool)
    | TransferOwnershipCall(dst: Address)
    | DepositCall(orderId: Id, token: Address, amount: uint256, beneficiary: Address)
    | LockListingCall(offerId: Id, token: Address, amount: uint256)
    | UnlockListingCall(offerId: Id)
    | BindListingLockCall(orderId: Id, offerId: Id, amount: uint256, beneficiary: Address)
    | RaiseDisputeCall(orderId: Id)
    | ReleaseCall(att: Attestation, sigs: seq<Signature>)
    | RefundCall(att: Attestation, sigs: seq<Signature>)
    | ResolveDisputeCall(att: Attestation, sigs: seq<Signature>)
    | TokenTransferCall(token: Address, dst: Address, amount: uint256)
    | TokenTransferFromCall(token: Address, src: Address, dst: Address, amount: uint256)
    | TokenApproveCall(token: Address, spender: Address, amount: uint256)
    | TokenMintCall(token: Address, dst: Address, amount: uint256)

  function Step(dep: Deployment, s: State, tx: Tx, call: Call): Outcome {
    match call
    case SetSignersCall(signers, threshold, minScore) => SetSigners(s, tx, signers, threshold, minScore)
    case SetDepositsPausedCall(paused) => SetDepositsPaused(s, tx, paused)
    case TransferOwnershipCall(dst) => TransferOwnership(s, tx, dst)
    case DepositCall(orderId, token, amount, beneficiary) => Deposit(dep, s, tx, orderId, token, amount, beneficiary)
    case LockListingCall(offerId, token, amount) => LockListing(dep, s, tx, offerId, token, amount)
    case UnlockListingCall(offerId) => UnlockListing(dep, s, tx, offerId)
    case BindListingLockCall(orderId, offerId, amount, beneficiary) =>
      BindListingLock(s, orderId, offerId, amount, beneficiary)
    case RaiseDisputeCall(orderId) => RaiseDispute(s, tx, orderId)
    case ReleaseCall(att, sigs) => Release(dep, s, tx, att, sigs)
    case RefundCall(att, sigs) => Refund(dep, s, tx, att, sigs)
    case ResolveDisputeCall(att, sigs) => ResolveDispute(dep, s, tx, att, sigs)
    case TokenTransferCall(token, dst, amount) =>
      if token !in s.tokens then Success(s)
      else TokenCall(dep, s, token, Transfer(s.tokens[token], tx.sender, dst, amount))
    case TokenTransferFromCall(token, src, dst, amount) =>
      if token !in s.tokens then Success(s)
      else TokenCall(dep, s, token, TransferFrom(s.tokens[token], tx.sender, src, dst, amount))
    case TokenApproveCall(token, spender, amount) =>
      if token !in s.tokens then Success(s)
      else TokenCall(dep, s, token, Success(Approve(s.tokens[token], tx.sender, spender, amount)))
    case TokenMintCall(token, dst, amount) =>
      if token !in s.tokens then Success(s)
      else TokenCall(dep, s, token, Mint(s.tokens[token], dst, amount))
  }

  // A transaction is never sent from address zero, nor by the contract itself, which calls
  // nothing but transfer and transferFrom on tokens.
  predicate Sendable(dep: Deployment, tx: Tx) {
    tx.sender != 0 && tx.sender != dep.self
  }

  // A run of transactions. One that reverts changes nothing.
  function Exec(dep: Deployment, s: State, run: seq<(Tx, Call)>): State {
    if run == [] then s else
      var before := Exec(dep, s, run[..|run| - 1]);
      var (tx, call) := run[|run| - 1];
      match Step(dep, before, tx, call)
      case Success(after) => after
      case Failure(_) => before
  }
}
