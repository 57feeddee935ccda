// What each call of the spending policy contract does, said from outside, and what a revocation is worth.
module SpendingCalls {
  import opened Results
  import opened Erc20
  import opened SpendingModel

  // ── granting ──

  // What a policy may say, and when.
  predicate Sensible(now: uint64, spender: Address, token: Address, perPayment: nat, windowCap: nat, cycleSecs: nat,
                     expiresAt: nat)
  {
    && spender != 0 && token != 0
    && 0 < perPayment <= windowCap && 0 < cycleSecs
    && (expiresAt == 0 || now < expiresAt)
  }

  // A policy says what its account last said, whatever it said before.
  predicate Says(p: Policy, account: Address, spender: Address, token: Address, perPayment: nat, windowCap: nat,
                 cycleSecs: nat, expiresAt: nat)
  {
    && p.account == account && p.spender == spender && p.token == token
    && p.perPayment == perPayment && p.windowCap == windowCap
    && p.cycleSecs == cycleSecs && p.expiresAt == expiresAt && p.live
  }

  // Nothing but policy `id`, and the log, is different.
  predicate OnlyPolicy(s: SpendState, s': SpendState, id: Id) {
    && s'.tokens == s.tokens
    && s'.policies.Keys == s.policies.Keys + {id}
    && forall i :: i in s.policies && i != id ==> s'.policies[i] == s.policies[i]
  }

  // Anybody may grant a new policy, and then only its account may change it. A grant is accepted exactly if it
  // makes sense. The account's own words stand; what was spent in the window stays spent unless the token changes.
  lemma GrantExactly(self: Address, s: SpendState, tx: SpendTx, id: Id, spender: Address, token: Address,
                     perPayment: uint256, windowCap: uint256, cycleSecs: uint64, expiresAt: uint64)
    ensures var r := SpendStep(self, s, tx, GrantCall(id, spender, token, perPayment, windowCap, cycleSecs, expiresAt));
      && (r.Success? <==>
            && Sensible(tx.now, spender, token, perPayment, windowCap, cycleSecs, expiresAt)
            && (id in s.policies ==> s.policies[id].account == tx.sender))
      && (r.Success? ==>
            && OnlyPolicy(s, r.value, id)
            && Says(r.value.policies[id], tx.sender, spender, token, perPayment, windowCap, cycleSecs, expiresAt)
            && r.value.log == s.log + [Granted(id, tx.now, token, windowCap, cycleSecs)]
            && var q := r.value.policies[id];
               if id in s.policies && s.policies[id].token == token
               then q.used == s.policies[id].used && q.windowStart == s.policies[id].windowStart
               else q.used == 0 && q.windowStart == tx.now)
  {}

  lemma GrantFaultsAre(self: Address, s: SpendState, tx: SpendTx, id: Id, spender: Address, token: Address,
                       perPayment: uint256, windowCap: uint256, cycleSecs: uint64, expiresAt: uint64)
    ensures var r := SpendStep(self, s, tx, GrantCall(id, spender, token, perPayment, windowCap, cycleSecs, expiresAt));
            r.Failure? ==>
              match r.error
              case ZeroAddress => spender == 0 || token == 0
              case ZeroAmount => perPayment == 0 || windowCap == 0
              case BadCaps => perPayment > windowCap
              case BadCycle => cycleSecs == 0
              case Expired => 0 < expiresAt <= tx.now
              case NotAccount => id in s.policies && s.policies[id].account != tx.sender
              case _ => false
  {}

  // ── revoking ──

  // Only the account revokes, and a revocation takes the life of its policy and nothing else: what was spent
  // in the window stays spent.
  lemma RevokeExactly(self: Address, s: SpendState, tx: SpendTx, id: Id)
    ensures var r := SpendStep(self, s, tx, RevokeCall(id));
      && (r.Success? <==> id in s.policies && s.policies[id].account == tx.sender)
      && (r.Success? ==>
            && OnlyPolicy(s, r.value, id)
            && r.value.policies[id] == s.policies[id].(live := false)
            && r.value.log == s.log + [Revoked(id, tx.now)])
      && (r.Failure? ==> r.error == (if id in s.policies then NotAccount else NoPolicy))
  {}

  // There is a policy `id`, and nobody can spend under it.
  ghost predicate Dead(self: Address, s: SpendState, id: Id) {
    && id in s.policies && !s.policies[id].live
    && (forall now: uint64 :: Available(s.policies, now, id) == Success(0))
    && (forall tx: SpendTx, amount: uint256, dst: Address
        :: SpendStep(self, s, tx, SpendCallOf(id, amount, dst)).Failure?)
  }

  lemma NotLiveIsDead(self: Address, s: SpendState, id: Id)
    requires id in s.policies && !s.policies[id].live
    ensures Dead(self, s, id)
  {}

  // No call of the run is a grant of `id` that goes through.
  predicate NoGrantOf(self: Address, s: SpendState, run: seq<(SpendTx, SpendCall)>, id: Id) {
    forall i :: 0 <= i < |run| && run[i].1.GrantCall? && run[i].1.id == id ==>
      SpendStep(self, SpendExec(self, s, run[..i]), run[i].0, run[i].1).Failure?
  }

  lemma EarlierGrants(self: Address, s: SpendState, run: seq<(SpendTx, SpendCall)>, id: Id)
    requires run != [] && NoGrantOf(self, s, run, id)
    ensures NoGrantOf(self, s, run[..|run| - 1], id)
  {
    var init := run[..|run| - 1];
    forall i | 0 <= i < |init| && init[i].1.GrantCall? && init[i].1.id == id
      ensures SpendStep(self, SpendExec(self, s, init[..i]), init[i].0, init[i].1).Failure?
    {
      assert init[..i] == run[..i] && init[i] == run[i];
    }
  }

  // Only a grant brings a policy to life.
  lemma StaysDead(self: Address, s: SpendState, tx: SpendTx, call: SpendCall, id: Id)
    requires id in s.policies && !s.policies[id].live
    requires SpendStep(self, s, tx, call).Success? && !(call.GrantCall? && call.id == id)
    ensures var s' := SpendStep(self, s, tx, call).value;
            id in s'.policies && s'.policies[id] == s.policies[id]
  {}

  // A revocation is for good: whatever anybody calls afterwards, short of the account's granting the policy
  // again, nothing is spent under it, nothing is available, and what it had spent stays on its books.
  lemma {:induction false} RevokedForGood(self: Address, s: SpendState, tx: SpendTx, id: Id,
                                          run: seq<(SpendTx, SpendCall)>)
    requires SpendStep(self, s, tx, RevokeCall(id)).Success?
    requires NoGrantOf(self, SpendStep(self, s, tx, RevokeCall(id)).value, run, id)
    ensures var after := SpendExec(self, SpendStep(self, s, tx, RevokeCall(id)).value, run);
            Dead(self, after, id) && after.policies[id] == s.policies[id].(live := false)
  {
    var revoked := SpendStep(self, s, tx, RevokeCall(id)).value;
    if run != [] {
      var init, last := run[..|run| - 1], run[|run| - 1];
      EarlierGrants(self, revoked, run, id);
      RevokedForGood(self, s, tx, id, init);
      var before := SpendExec(self, revoked, init);
      if SpendStep(self, before, last.0, last.1).Success? {
        StaysDead(self, before, last.0, last.1, id);
      }
    }
    NotLiveIsDead(self, SpendExec(self, revoked, run), id);
  }

  // And only its own account can grant it again.
  lemma OnlyAccountRevives(self: Address, s: SpendState, tx: SpendTx, call: SpendCall, id: Id)
    requires id in s.policies && !s.policies[id].live && SpendStep(self, s, tx, call).Success?
    ensures var s' := SpendStep(self, s, tx, call).value;
            && id in s'.policies
            && (s'.policies[id].live ==> call.GrantCall? && call.id == id && tx.sender == s.policies[id].account)
  {}

  // ── spending ──

  // The policy lets this sender spend this much now.
  predicate Entitled(p: Policy, tx: SpendTx, amount: nat) {
    && p.live && tx.sender == p.spender && (p.expiresAt == 0 || tx.now <= p.expiresAt)
    && 0 < amount <= p.perPayment
    && p.windowStart + p.cycleSecs <= MAX_UINT64
    && amount + (if tx.now < p.windowStart + p.cycleSecs then p.used else 0) <= p.windowCap
  }

  // The account has approved and holds the amount, and all of it arrives at somebody else.
  predicate Payable(self: Address, T: map<Address, Ledger>, p: Policy, amount: nat, dst: Address) {
    && p.token in T && dst != 0 && dst != p.account
    && var l := T[p.token];
       && amount <= Allowance(l, p.account, self) && amount <= BalanceOf(l, p.account)
       && BalanceOf(l, dst) + amount <= MAX_UINT256 && (l.taxed ==> amount < 100)
  }

  // The window the policy is left in: the one it was in, or a whole number of cycles later and around now.
  ghost predicate WindowAround(p: Policy, start: nat, now: uint64) {
    if now < p.windowStart + p.cycleSecs then start == p.windowStart else
      && start <= now < start + p.cycleSecs
      && exists n: nat {:trigger CyclesLater(p, start, n)} :: CyclesLater(p, start, n)
  }

  predicate CyclesLater(p: Policy, start: nat, n: nat) {
    start == p.windowStart + n * p.cycleSecs
  }

  lemma RolledAround(p: Policy, now: uint64)
    ensures WindowAround(p, Rolled(p, now).windowStart, now)
    ensures Rolled(p, now) == p.(windowStart := Rolled(p, now).windowStart, used := Rolled(p, now).used)
    ensures Rolled(p, now).used == if now < p.windowStart + p.cycleSecs then p.used else 0
  {
    if now >= p.windowStart + p.cycleSecs {
      WholeCyclesFit(now - p.windowStart, p.cycleSecs);
      assert CyclesLater(p, Rolled(p, now).windowStart, (now - p.windowStart) / p.cycleSecs);
    }
  }

  lemma ChargedExactly(p: Policy, tx: SpendTx, amount: uint256)
    requires p.live && tx.sender == p.spender && (p.expiresAt == 0 || tx.now <= p.expiresAt)
             && 0 < amount <= p.perPayment
    ensures Charged(p, tx.now, amount).Success? <==> Entitled(p, tx, amount)
    ensures Charged(p, tx.now, amount).Success? ==>
              var q := Charged(p, tx.now, amount).value;
              && WindowAround(p, q.windowStart, tx.now) && q == p.(windowStart := q.windowStart, used := q.used)
              && q.used == amount + if tx.now < p.windowStart + p.cycleSecs then p.used else 0
  {
    RolledAround(p, tx.now);
  }

  // Exactly the amount leaves the account and arrives, the approval is used up by it, and nobody else's
  // tokens move.
  ghost predicate Paid(self: Address, T: map<Address, Ledger>, T': map<Address, Ledger>, p: Policy, amount: nat,
                       dst: Address)
    requires p.token in T
  {
    && T'.Keys == T.Keys && (forall t :: t in T && t != p.token ==> T'[t] == T[t])
    && var l, l' := T[p.token], T'[p.token];
       && BalanceOf(l', p.account) == BalanceOf(l, p.account) - amount
       && BalanceOf(l', dst) == BalanceOf(l, dst) + amount
       && OtherBalancesKept(l, l', p.account, dst) && OtherApprovalsKept(l, l', p.account, self)
       && Allowance(l', p.account, self) ==
          (if Allowance(l, p.account, self) == MAX_UINT256 then MAX_UINT256 else Allowance(l, p.account, self) - amount)
  }

  lemma PayFromExactly(self: Address, T: map<Address, Ledger>, p: Policy, amount: uint256, dst: Address)
    requires amount > 0 && dst != 0
    ensures PayFrom(self, T, p, amount, dst).Success? <==> Payable(self, T, p, amount, dst)
    ensures PayFrom(self, T, p, amount, dst).Success?
            ==> Paid(self, T, PayFrom(self, T, p, amount, dst).value, p, amount, dst)
  {
    if p.token in T {
      var l := T[p.token];
      TransferFromGoes(l, self, p.account, dst, amount);
      if TransferFrom(l, self, p.account, dst, amount).Success? {
        TransferFromMoves(l, self, p.account, dst, amount);
        TransferFromExactly(l, self, p.account, dst, amount);
      }
    }
  }

  // The spender and nobody else spends, up to the single payment, the window, the expiry, the approval and the
  // balance, and all of it has to arrive. Only the window's counter and start change on the policy.
  lemma SpendExactly(self: Address, s: SpendState, tx: SpendTx, id: Id, amount: uint256, dst: Address)
    ensures var r := SpendStep(self, s, tx, SpendCallOf(id, amount, dst));
      && (r.Success? <==>
            && id in s.policies && Entitled(s.policies[id], tx, amount)
            && Payable(self, s.tokens, s.policies[id], amount, dst))
      && (r.Success? ==>
            && id in r.value.policies
            && var p, q := s.policies[id], r.value.policies[id];
               && r.value.policies == s.policies[id := q]
               && WindowAround(p, q.windowStart, tx.now) && q == p.(windowStart := q.windowStart, used := q.used)
               && q.used == amount + (if tx.now < p.windowStart + p.cycleSecs then p.used else 0)
               && Paid(self, s.tokens, r.value.tokens, p, amount, dst)
               && r.value.log == s.log + [Spent(id, tx.now, tx.sender, dst, amount, q.used)])
  {
    if SpendFault(s.policies, tx, id, amount, dst) == None {
      ChargedExactly(s.policies[id], tx, amount);
      if Charged(s.policies[id], tx.now, amount).Success? {
        PayFromExactly(self, s.tokens, Charged(s.policies[id], tx.now, amount).value, amount, dst);
      }
    }
  }

  lemma SpendFaultsAre(self: Address, s: SpendState, tx: SpendTx, id: Id, amount: uint256, dst: Address)
    ensures var r := SpendStep(self, s, tx, SpendCallOf(id, amount, dst));
            r.Failure? ==>
              match r.error
              case ZeroAmount => amount == 0
              case ZeroAddress => dst == 0
              case NoPolicy => id !in s.policies
              case NotLive => id in s.policies && !s.policies[id].live
              case NotSpender => id in s.policies && tx.sender != s.policies[id].spender
              case Expired => id in s.policies && 0 < s.policies[id].expiresAt < tx.now
              case OverPerPayment => id in s.policies && amount > s.policies[id].perPayment
              case OverWindow => id in s.policies && !Entitled(s.policies[id], tx, amount)
              case TransferFailed => id in s.policies && !Payable(self, s.tokens, s.policies[id], amount, dst)
              case Panic => id in s.policies
              case _ => false
  {
    if SpendFault(s.policies, tx, id, amount, dst) == None {
      ChargedExactly(s.policies[id], tx, amount);
      if Charged(s.policies[id], tx.now, amount).Success? {
        PayFromExactly(self, s.tokens, Charged(s.policies[id], tx.now, amount).value, amount, dst);
      }
    }
  }
}
