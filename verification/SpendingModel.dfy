// The spending policy contract: who may spend an account's tokens, how much at once, how much per
// window, until when.
module SpendingModel {
  import opened Results
  import opened Erc20

  const MAX_UINT64: nat := 0xFFFF_FFFF_FFFF_FFFF

  type uint64 = n: nat | n <= MAX_UINT64

  // A cycle that was accepted is not zero.
  type cycle64 = n: nat | 0 < n <= MAX_UINT64 witness 1

  type Id = nat

  datatype Policy = Policy(
    account: Address, spender: Address, token: Address, perPayment: uint256, windowCap: uint256,
    cycleSecs: cycle64, expiresAt: uint64, used: uint256, windowStart: uint64, live: bool)

  datatype SpendError =
    | NotAccount | NotSpender | NoPolicy | NotLive | Expired | ZeroAmount | ZeroAddress | BadCaps
    | BadCycle | OverPerPayment | OverWindow | TransferFailed
    | Panic // checked arithmetic, or a call that needs code at an address without any

  // The contract's events, with the block time they were mined at.
  datatype SpendEvent =
    | Granted(id: Id, at: nat, token: Address, windowCap: nat, cycleSecs: nat)
    | Revoked(id: Id, at: nat)
    | Spent(id: Id, at: nat, spender: Address, dst: Address, amount: nat, windowUsed: nat)

  datatype SpendTx = SpendTx(sender: Address, now: uint64)

  datatype SpendState = SpendState(policies: map<Id, Policy>, tokens: map<Address, Ledger>, log: seq<SpendEvent>)

  type SpendOutcome = Result<SpendState, SpendError>

  function GrantFault(tx: SpendTx, spender: Address, token: Address, perPayment: uint256, windowCap: uint256,
                      cycleSecs: uint64, expiresAt: uint64): Option<SpendError> {
    if spender == 0 || token == 0 then Some(ZeroAddress)
    else if perPayment == 0 || windowCap == 0 then Some(ZeroAmount)
    else if perPayment > windowCap then Some(BadCaps)
    else if cycleSecs == 0 then Some(BadCycle)
    else if expiresAt != 0 && expiresAt <= tx.now then Some(Expired)
    else None
  }

  function Grant(s: SpendState, tx: SpendTx, id: Id, spender: Address, token: Address, perPayment: uint256,
                 windowCap: uint256, cycleSecs: uint64, expiresAt: uint64): SpendOutcome {
    match GrantFault(tx, spender, token, perPayment, windowCap, cycleSecs, expiresAt)
    case Some(e) => Failure(e)
    case None =>
      var e := Granted(id, tx.now, token, windowCap, cycleSecs);
      if id !in s.policies then
        var p := Policy(tx.sender, spender, token, perPayment, windowCap, cycleSecs, expiresAt, 0, tx.now, true);
        Success(s.(policies := s.policies[id := p], log := s.log + [e]))
      else if s.policies[id].account != tx.sender then Failure(NotAccount)
      else
        var old' := s.policies[id];
        var kept := if old'.token != token then old'.(used := 0, windowStart := tx.now) else old';
        var p := kept.(spender := spender, token := token, perPayment := perPayment, windowCap := windowCap,
                       cycleSecs := cycleSecs, expiresAt := expiresAt, live := true);
        Success(s.(policies := s.policies[id := p], log := s.log + [e]))
  }

  function Revoke(s: SpendState, tx: SpendTx, id: Id): SpendOutcome {
    if id !in s.policies then Failure(NoPolicy)
    else if s.policies[id].account != tx.sender then Failure(NotAccount)
    else Success(s.(policies := s.policies[id := s.policies[id].(live := false)], log := s.log + [Revoked(id, tx.now)]))
  }

  // The policy with its window rolled forward by whole cycles, if the current one has ended.
  function Rolled(p: Policy, now: uint64): Policy {
    if now >= p.windowStart + p.cycleSecs then
      WholeCyclesFit(now - p.windowStart, p.cycleSecs);
      p.(windowStart := p.windowStart + (now - p.windowStart) / p.cycleSecs * p.cycleSecs, used := 0)
    else p
  }

  lemma WholeCyclesFit(elapsed: nat, cycle: nat)
    requires cycle > 0
    ensures 0 <= elapsed / cycle * cycle <= elapsed < elapsed / cycle * cycle + cycle
  {}

  // The first gate a spend fails before its window is looked at.
  function SpendFault(policies: map<Id, Policy>, tx: SpendTx, id: Id, amount: uint256,
                      dst: Address): Option<SpendError>
  {
    if amount == 0 then Some(ZeroAmount)
    else if dst == 0 then Some(ZeroAddress)
    else if id !in policies then Some(NoPolicy)
    else if !policies[id].live then Some(NotLive)
    else if tx.sender != policies[id].spender then Some(NotSpender)
    else if policies[id].expiresAt != 0 && tx.now > policies[id].expiresAt then Some(Expired)
    else if amount > policies[id].perPayment then Some(OverPerPayment)
    else None
  }

  // The policy after its window is rolled and charged, if the window has room.
  function Charged(p: Policy, now: uint64, amount: uint256): Result<Policy, SpendError> {
    if p.windowStart + p.cycleSecs > MAX_UINT64 then Failure(Panic)
    else
      var r := Rolled(p, now);
      if r.used + amount > MAX_UINT256 then Failure(Panic)
      else if r.used + amount > r.windowCap then Failure(OverWindow)
      else Success(r.(used := r.used + amount))
  }

  function Spend(self: Address, s: SpendState, tx: SpendTx, id: Id, amount: uint256, dst: Address): SpendOutcome {
    match SpendFault(s.policies, tx, id, amount, dst)
    case Some(e) => Failure(e)
    case None =>
      var q :- Charged(s.policies[id], tx.now, amount);
      var T' :- PayFrom(self, s.tokens, q, amount, dst);
      Success(SpendState(s.policies[id := q], T', s.log + [Spent(id, tx.now, tx.sender, dst, amount, q.used)]))
  }

  // transferFrom the account, accepted only if exactly `amount` arrives.
  function PayFrom(self: Address, T: map<Address, Ledger>, p: Policy, amount: uint256, dst: Address):
    Result<map<Address, Ledger>, SpendError>
  {
    if p.token !in T then Failure(Panic) else
      match TransferFrom(T[p.token], self, p.account, dst, amount)
      case Failure(_) => Failure(TransferFailed)
      case Success(l) =>
        if BalanceOf(l, dst) < BalanceOf(T[p.token], dst) then Failure(Panic)
        else if BalanceOf(l, dst) - BalanceOf(T[p.token], dst) != amount then Failure(TransferFailed)
        else Success(T[p.token := l])
  }

  // What is left of the current window, rolled forward if it has ended.
  function Available(policies: map<Id, Policy>, now: uint64, id: Id): Result<uint256, SpendError> {
    if id !in policies || !policies[id].live then Success(0)
    else
      var p := policies[id];
      if p.expiresAt != 0 && now > p.expiresAt then Success(0)
      else if p.windowStart + p.cycleSecs > MAX_UINT64 then Failure(Panic)
      else
        var used := EffectiveUsed(p, now);
        if used >= p.windowCap then Success(0)
        else Success(if p.windowCap - used < p.perPayment then p.windowCap - used else p.perPayment)
  }

  function EffectiveUsed(p: Policy, now: nat): uint256 {
    if now >= p.windowStart + p.cycleSecs then 0 else p.used
  }

  predicate IsLive(policies: map<Id, Policy>, now: uint64, id: Id) {
    id in policies && policies[id].live && (policies[id].expiresAt == 0 || now <= policies[id].expiresAt)
  }

  // ── runs ──

  datatype SpendCall =
    | GrantCall(id: Id, spender: Address, token: Address, perPayment: uint256, windowCap: uint256, cycleSecs: uint64,
                expiresAt: uint64)
    | RevokeCall(id: Id)
    | SpendCallOf(id: Id, amount: uint256, dst: Address)
    | TokensChange(tokens: map<Address, Ledger>) // anything other people do to the token contracts

  function SpendStep(self: Address, s: SpendState, tx: SpendTx, call: SpendCall): SpendOutcome {
    match call
    case GrantCall(id, spender, token, perPayment, windowCap, cycleSecs, expiresAt) =>
      Grant(s, tx, id, spender, token, perPayment, windowCap, cycleSecs, expiresAt)
    case RevokeCall(id) => Revoke(s, tx, id)
    case SpendCallOf(id, amount, dst) => Spend(self, s, tx, id, amount, dst)
    case TokensChange(tokens) => Success(s.(tokens := tokens))
  }

  function SpendExec(self: Address, s: SpendState, run: seq<(SpendTx, SpendCall)>): SpendState {
    if run == [] then s else
      var before := SpendExec(self, s, run[..|run| - 1]);
      match SpendStep(self, before, run[|run| - 1].0, run[|run| - 1].1)
      case Success(after) => after
      case Failure(_) => before
  }
}
