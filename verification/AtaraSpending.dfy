// The contract itself: policies that grant, revoke and spend update in place.
module AtaraSpending {
  import opened Results
  import opened Erc20
  import opened SpendingModel

  class Spending {
    const self: Address

    var policies: map<Id, Policy>
    // The storage of the token contracts it calls.
    var tokens: map<Address, Ledger>
    var log: seq<SpendEvent>

    ghost function Now(): SpendState
      reads this
    {
      SpendState(policies, tokens, log)
    }

    twostate predicate Did(outcome: SpendOutcome, new reverted: Option<SpendError>)
      reads this
    {
      match outcome
      case Success(after) => reverted == None && Now() == after
      case Failure(e) => reverted == Some(e) && Now() == old(Now())
    }

    constructor (self: Address, tokens: map<Address, Ledger>)
      ensures this.self == self && Now() == SpendState(map[], tokens, [])
    {
      this.self := self;
      policies, this.tokens, log := map[], tokens, [];
    }

    method Grant(tx: SpendTx, id: Id, spender: Address, token: Address, perPayment: uint256, windowCap: uint256,
                 cycleSecs: uint64, expiresAt: uint64) returns (reverted: Option<SpendError>)
      modifies this
      ensures Did(SpendingModel.Grant(old(Now()), tx, id, spender, token, perPayment, windowCap, cycleSecs, expiresAt),
                  reverted)
    {
      if spender == 0 || token == 0 { return Some(ZeroAddress); }
      if perPayment == 0 || windowCap == 0 { return Some(ZeroAmount); }
      if perPayment > windowCap { return Some(BadCaps); }
      if cycleSecs == 0 { return Some(BadCycle); }
      if expiresAt != 0 && expiresAt <= tx.now { return Some(Expired); }
      if id !in policies {
        policies := policies[id := Policy(tx.sender, spender, token, perPayment, windowCap, cycleSecs, expiresAt, 0,
                                          tx.now, true)];
      } else {
        var p := policies[id];
        if p.account != tx.sender { return Some(NotAccount); }
        if p.token != token {
          p := p.(used := 0, windowStart := tx.now);
        }
        p := p.(spender := spender, token := token);
        p := p.(perPayment := perPayment, windowCap := windowCap);
        p := p.(cycleSecs := cycleSecs, expiresAt := expiresAt);
        p := p.(live := true);
        policies := policies[id := p];
      }
      log := log + [Granted(id, tx.now, token, windowCap, cycleSecs)];
      return None;
    }

    method Revoke(tx: SpendTx, id: Id) returns (reverted: Option<SpendError>)
      modifies this
      ensures Did(SpendingModel.Revoke(old(Now()), tx, id), reverted)
    {
      if id !in policies { return Some(NoPolicy); }
      if policies[id].account != tx.sender { return Some(NotAccount); }
      policies := policies[id := policies[id].(live := false)];
      log := log + [Revoked(id, tx.now)];
      return None;
    }

    method Spend(tx: SpendTx, id: Id, amount: uint256, dst: Address) returns (reverted: Option<SpendError>)
      modifies this
      ensures Did(SpendingModel.Spend(self, old(Now()), tx, id, amount, dst), reverted)
    {
      if amount == 0 { return Some(ZeroAmount); }
      if dst == 0 { return Some(ZeroAddress); }
      if id !in policies { return Some(NoPolicy); }
      if !policies[id].live { return Some(NotLive); }
      if tx.sender != policies[id].spender { return Some(NotSpender); }
      if policies[id].expiresAt != 0 && tx.now > policies[id].expiresAt { return Some(Expired); }
      if amount > policies[id].perPayment { return Some(OverPerPayment); }
      var before := policies;
      reverted := ChargeWindow(id, tx.now, amount);
      if reverted.Some? { return; }
      reverted := Collect(policies[id], amount, dst);
      if reverted.Some? {
        policies := before;
        return;
      }
      log := log + [Spent(id, tx.now, tx.sender, dst, amount, policies[id].used)];
    }

    // Rolls the window of a policy by whole cycles and charges it.
    method ChargeWindow(id: Id, now: uint64, amount: uint256) returns (reverted: Option<SpendError>)
      requires id in policies
      modifies this`policies
      ensures match Charged(old(policies[id]), now, amount)
        case Success(q) => reverted == None && policies == old(policies)[id := q]
        case Failure(e) => reverted == Some(e) && policies == old(policies)
    {
      var p := policies[id];
      if p.windowStart + p.cycleSecs > MAX_UINT64 { return Some(Panic); }
      if now >= p.windowStart + p.cycleSecs {
        var elapsed := now - p.windowStart;
        WholeCyclesFit(elapsed, p.cycleSecs);
        p := p.(windowStart := p.windowStart + elapsed / p.cycleSecs * p.cycleSecs);
        p := p.(used := 0);
      }
      if p.used + amount > MAX_UINT256 { return Some(Panic); }
      if p.used + amount > p.windowCap { return Some(OverWindow); }
      policies := policies[id := p.(used := p.used + amount)];
      return None;
    }

    method Collect(p: Policy, amount: uint256, dst: Address) returns (reverted: Option<SpendError>)
      modifies this`tokens
      ensures match PayFrom(self, old(tokens), p, amount, dst)
        case Success(after) => reverted == None && tokens == after
        case Failure(e) => reverted == Some(e) && tokens == old(tokens)
    {
      if p.token !in tokens { return Some(Panic); }
      var before := BalanceOf(tokens[p.token], dst);
      match TransferFrom(tokens[p.token], self, p.account, dst, amount)
      case Failure(_) => return Some(TransferFailed);
      case Success(l) =>
        if BalanceOf(l, dst) < before { return Some(Panic); }
        if BalanceOf(l, dst) - before != amount { return Some(TransferFailed); }
        tokens := tokens[p.token := l];
        return None;
    }

    method AvailableNow(now: uint64, id: Id) returns (left: Result<uint256, SpendError>)
      ensures left == Available(policies, now, id)
    {
      if id !in policies || !policies[id].live { return Success(0); }
      var p := policies[id];
      if p.expiresAt != 0 && now > p.expiresAt { return Success(0); }
      if p.windowStart + p.cycleSecs > MAX_UINT64 { return Failure(Panic); }
      var used := p.used;
      if now >= p.windowStart + p.cycleSecs {
        used := 0;
      }
      if used >= p.windowCap { return Success(0); }
      var rest: uint256 := p.windowCap - used;
      return Success(if rest < p.perPayment then rest else p.perPayment);
    }
  }
}
