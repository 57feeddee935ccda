// The token contracts that AtaraEscrow and AtaraSpending call.
module Erc20 {
  import opened Results
  import opened Sums

  const MAX_UINT256: nat := 0xFFFF_FFFF_FFFF_FFFF_FFFF_FFFF_FFFF_FFFF_FFFF_FFFF_FFFF_FFFF_FFFF_FFFF_FFFF_FFFF

  type uint256 = n: nat | n <= MAX_UINT256

  // Account and contract addresses. Zero is Solidity's address(0).
  type Address = nat

  datatype TokenError = OverAllowance | OverBalance | Overflow

  // The storage of one token contract. A `taxed` token keeps one part in a hundred of what
  // transferFrom moves; an honest one keeps nothing.
  datatype Ledger = Ledger(
    balances: map<Address, uint256>,
    allowances: map<(Address, Address), uint256>,
    totalSupply: uint256,
    taxed: bool)

  function BalanceOf(l: Ledger, a: Address): uint256 {
    if a in l.balances then l.balances[a] else 0
  }

  function Allowance(l: Ledger, owner: Address, spender: Address): uint256 {
    if (owner, spender) in l.allowances then l.allowances[(owner, spender)] else 0
  }

  function Arrival(l: Ledger, amount: uint256): (arrived: uint256)
    ensures arrived <= amount
  {
    if l.taxed then amount - amount / 100 else amount
  }

  function Move(l: Ledger, src: Address, dst: Address, amount: uint256, arrived: uint256): Result<Ledger, TokenError> {
    if BalanceOf(l, src) < amount then Failure(OverBalance) else
      var debited := l.(balances := l.balances[src := BalanceOf(l, src) - amount]);
      if BalanceOf(debited, dst) + arrived > MAX_UINT256 then Failure(Overflow) else
        Success(debited.(balances := debited.balances[dst := BalanceOf(debited, dst) + arrived]))
  }

  function Transfer(l: Ledger, sender: Address, dst: Address, amount: uint256): Result<Ledger, TokenError> {
    Move(l, sender, dst, amount, amount)
  }

  function TransferFrom(l: Ledger, spender: Address, src: Address, dst: Address,
                        amount: uint256): Result<Ledger, TokenError>
  {
    var a := Allowance(l, src, spender);
    if a < amount then Failure(OverAllowance) else
      var l' := if a == MAX_UINT256 then l else l.(allowances := l.allowances[(src, spender) := a - amount]);
      Move(l', src, dst, amount, Arrival(l, amount))
  }

  function Approve(l: Ledger, owner: Address, spender: Address, amount: uint256): Ledger {
    l.(allowances := l.allowances[(owner, spender) := amount])
  }

  function Mint(l: Ledger, dst: Address, amount: uint256): Result<Ledger, TokenError> {
    if BalanceOf(l, dst) + amount > MAX_UINT256 || l.totalSupply + amount > MAX_UINT256 then Failure(Overflow) else
      Success(l.(balances := l.balances[dst := BalanceOf(l, dst) + amount], totalSupply := l.totalSupply + amount))
  }

  function Holding(l: Ledger): nat -> int {
    (a: nat) => BalanceOf(l, a) as int
  }

  // All that the accounts of a ledger hold together.
  ghost function Held(l: Ledger): int {
    Sum(l.balances.Keys, Holding(l))
  }

  // No more is held than was ever minted. A taxed transfer destroys the tax; nothing else does.
  ghost predicate Sound(l: Ledger) {
    Held(l) <= l.totalSupply
  }

  lemma HoldingAt(l: Ledger)
    ensures forall a {:trigger At(l.balances.Keys, Holding(l), a)}
            :: At(l.balances.Keys, Holding(l), a) == BalanceOf(l, a)
  {}

  lemma BalanceBelowHeld(l: Ledger, a: Address)
    ensures BalanceOf(l, a) <= Held(l)
  {
    HoldingAt(l);
    TermBelowSum(l.balances.Keys, Holding(l), a);
    assert At(l.balances.Keys, Holding(l), a) == BalanceOf(l, a);
  }

  // Overwriting one balance changes what is held by the difference.
  lemma HeldAfter(l: Ledger, a: Address, v: uint256)
    ensures Held(l.(balances := l.balances[a := v])) == Held(l) + v - BalanceOf(l, a)
  {
    var l' := l.(balances := l.balances[a := v]);
    HoldingAt(l);
    HoldingAt(l');
    forall k | k != a ensures At(l.balances.Keys, Holding(l), k) == At(l'.balances.Keys, Holding(l'), k) {
      assert BalanceOf(l, k) == BalanceOf(l', k);
    }
    SumChange(l.balances.Keys, Holding(l), l'.balances.Keys, Holding(l'), a);
    assert At(l.balances.Keys, Holding(l), a) == BalanceOf(l, a);
    assert At(l'.balances.Keys, Holding(l'), a) == v;
  }

  // Held does not look at allowances.
  lemma HeldIgnoresAllowances(l: Ledger, m: Ledger)
    requires l.balances == m.balances
    ensures Held(l) == Held(m)
  {
    HoldingAt(l);
    HoldingAt(m);
    forall k ensures At(l.balances.Keys, Holding(l), k) == At(m.balances.Keys, Holding(m), k) {
      assert BalanceOf(l, k) == BalanceOf(m, k);
    }
    SumAgree(l.balances.Keys, Holding(l), m.balances.Keys, Holding(m));
  }

  lemma MoveBalances(l: Ledger, src: Address, dst: Address, amount: uint256, arrived: uint256)
    requires Move(l, src, dst, amount, arrived).Success?
    ensures var l' := Move(l, src, dst, amount, arrived).value;
      && (src != dst ==>
            && BalanceOf(l', src) == BalanceOf(l, src) - amount
            && BalanceOf(l', dst) == BalanceOf(l, dst) + arrived)
      && (src == dst ==> BalanceOf(l', src) == BalanceOf(l, src) - amount + arrived)
      && (forall a :: a != src && a != dst ==> BalanceOf(l', a) == BalanceOf(l, a))
  {}

  // A move takes exactly `amount` from one account, gives exactly `arrived` to the other,
  // touches nobody else, and loses exactly the difference from what is held.
  lemma MoveConserves(l: Ledger, src: Address, dst: Address, amount: uint256, arrived: uint256)
    requires Move(l, src, dst, amount, arrived).Success?
    ensures var l' := Move(l, src, dst, amount, arrived).value;
      && Held(l') == Held(l) - amount + arrived
      && (src != dst ==>
            && BalanceOf(l', src) == BalanceOf(l, src) - amount
            && BalanceOf(l', dst) == BalanceOf(l, dst) + arrived)
      && (src == dst ==> BalanceOf(l', src) == BalanceOf(l, src) - amount + arrived)
      && (forall a :: a != src && a != dst ==> BalanceOf(l', a) == BalanceOf(l, a))
  {
    MoveBalances(l, src, dst, amount, arrived);
    MoveHeld(l, src, dst, amount, arrived);
  }

  lemma MoveHeld(l: Ledger, src: Address, dst: Address, amount: uint256, arrived: uint256)
    requires Move(l, src, dst, amount, arrived).Success?
    ensures Held(Move(l, src, dst, amount, arrived).value) == Held(l) - amount + arrived
  {
    HeldAfter(l, src, BalanceOf(l, src) - amount);
    var debited := l.(balances := l.balances[src := BalanceOf(l, src) - amount]);
    HeldAfter(debited, dst, BalanceOf(debited, dst) + arrived);
  }

  // transferFrom moves what Move moves, and no balance sees the allowance change.
  lemma TransferFromMoves(l: Ledger, spender: Address, src: Address, dst: Address, amount: uint256)
    requires TransferFrom(l, spender, src, dst, amount).Success?
    ensures var l' := TransferFrom(l, spender, src, dst, amount).value;
      && (src != dst ==>
            && BalanceOf(l', src) == BalanceOf(l, src) - amount
            && BalanceOf(l', dst) == BalanceOf(l, dst) + Arrival(l, amount))
      && (src == dst ==> BalanceOf(l', src) == BalanceOf(l, src) - amount + Arrival(l, amount))
      && (forall a :: a != src && a != dst ==> BalanceOf(l', a) == BalanceOf(l, a))
  {
    var a := Allowance(l, src, spender);
    var l' := if a == MAX_UINT256 then l else l.(allowances := l.allowances[(src, spender) := a - amount]);
    MoveConserves(l', src, dst, amount, Arrival(l, amount));
    assert forall x :: BalanceOf(l', x) == BalanceOf(l, x);
  }

  // On a sound ledger the only thing that can refuse a transfer is the sender's balance.
  lemma TransferRefusedOnlyByBalance(l: Ledger, src: Address, dst: Address, amount: uint256)
    requires Sound(l)
    ensures Transfer(l, src, dst, amount).Success? <==> amount <= BalanceOf(l, src)
  {
    if amount <= BalanceOf(l, src) {
      HeldAfter(l, src, BalanceOf(l, src) - amount);
      BalanceBelowHeld(l.(balances := l.balances[src := BalanceOf(l, src) - amount]), dst);
    }
  }

  // transferFrom needs the approval as well, and nothing more.
  lemma TransferFromRefusedOnlyByAllowanceOrBalance(l: Ledger, spender: Address, src: Address, dst: Address,
                                                    amount: uint256)
    requires Sound(l)
    ensures TransferFrom(l, spender, src, dst, amount).Success? <==>
            amount <= Allowance(l, src, spender) && amount <= BalanceOf(l, src)
  {
    if amount <= Allowance(l, src, spender) && amount <= BalanceOf(l, src) {
      HeldAfter(l, src, BalanceOf(l, src) - amount);
      BalanceBelowHeld(l.(balances := l.balances[src := BalanceOf(l, src) - amount]), dst);
    }
  }

  lemma TransferSound(l: Ledger, src: Address, dst: Address, amount: uint256)
    requires Sound(l) && Transfer(l, src, dst, amount).Success?
    ensures Sound(Transfer(l, src, dst, amount).value)
  {
    MoveConserves(l, src, dst, amount, amount);
  }

  lemma TransferFromSound(l: Ledger, spender: Address, src: Address, dst: Address, amount: uint256)
    requires Sound(l) && TransferFrom(l, spender, src, dst, amount).Success?
    ensures Sound(TransferFrom(l, spender, src, dst, amount).value)
  {
    var a := Allowance(l, src, spender);
    var l' := if a == MAX_UINT256 then l else l.(allowances := l.allowances[(src, spender) := a - amount]);
    HeldIgnoresAllowances(l, l');
    MoveConserves(l', src, dst, amount, Arrival(l, amount));
  }

  lemma MintSound(l: Ledger, dst: Address, amount: uint256)
    requires Sound(l) && Mint(l, dst, amount).Success?
    ensures Sound(Mint(l, dst, amount).value)
  {
    HeldAfter(l, dst, BalanceOf(l, dst) + amount);
    HeldIgnoresAllowances(Mint(l, dst, amount).value, l.(balances := l.balances[dst := BalanceOf(l, dst) + amount]));
  }

  lemma ApproveSound(l: Ledger, owner: Address, spender: Address, amount: uint256)
    requires Sound(l)
    ensures Sound(Approve(l, owner, spender, amount))
  {
    HeldIgnoresAllowances(l, Approve(l, owner, spender, amount));
  }

  // ── what each call leaves, as the standard has it ──

  // No approval changes but perhaps one.
  ghost predicate OtherApprovalsKept(l: Ledger, l': Ledger, owner: Address, spender: Address) {
    forall o: Address, p: Address :: (o, p) != (owner, spender) ==> Allowance(l', o, p) == Allowance(l, o, p)
  }

  // No balance changes but perhaps two.
  ghost predicate OtherBalancesKept(l: Ledger, l': Ledger, a: Address, b: Address) {
    forall x: Address :: x != a && x != b ==> BalanceOf(l', x) == BalanceOf(l, x)
  }

  // A transfer needs the balance and room at the other end; it takes the amount from one, gives it to the
  // other, and touches no approval and no supply.
  lemma TransferExactly(l: Ledger, sender: Address, dst: Address, amount: uint256)
    ensures var r := Transfer(l, sender, dst, amount);
      && (r.Success? <==>
            amount <= BalanceOf(l, sender) && (dst == sender || BalanceOf(l, dst) + amount <= MAX_UINT256))
      && (r.Success? ==>
            && BalanceOf(r.value, sender) == BalanceOf(l, sender) - (if dst == sender then 0 else amount)
            && BalanceOf(r.value, dst) == BalanceOf(l, dst) + (if dst == sender then 0 else amount)
            && OtherBalancesKept(l, r.value, sender, dst)
            && r.value.allowances == l.allowances && r.value.totalSupply == l.totalSupply && r.value.taxed == l.taxed)
  {
    if Transfer(l, sender, dst, amount).Success? {
      MoveBalances(l, sender, dst, amount, amount);
    }
  }

  // transferFrom needs the approval, the balance, and room at the other end for what arrives.
  lemma TransferFromGoes(l: Ledger, spender: Address, src: Address, dst: Address, amount: uint256)
    ensures TransferFrom(l, spender, src, dst, amount).Success? <==>
            && amount <= Allowance(l, src, spender) && amount <= BalanceOf(l, src)
            && (dst == src || BalanceOf(l, dst) + Arrival(l, amount) <= MAX_UINT256)
  {
    var a := Allowance(l, src, spender);
    if amount <= a && amount <= BalanceOf(l, src) {
      var l' := if a == MAX_UINT256 then l else l.(allowances := l.allowances[(src, spender) := a - amount]);
      assert BalanceOf(l', src) == BalanceOf(l, src) && BalanceOf(l', dst) == BalanceOf(l, dst);
    }
  }

  // transferFrom uses up the approval by the amount, unless it is the unlimited one, and no other.
  lemma TransferFromExactly(l: Ledger, spender: Address, src: Address, dst: Address, amount: uint256)
    ensures var r := TransferFrom(l, spender, src, dst, amount);
      && (amount > Allowance(l, src, spender) ==> r == Failure(OverAllowance))
      && (r.Success? ==>
            && amount <= Allowance(l, src, spender)
            && Allowance(r.value, src, spender) ==
               (if Allowance(l, src, spender) == MAX_UINT256 then MAX_UINT256 else Allowance(l, src, spender) - amount)
            && OtherApprovalsKept(l, r.value, src, spender) && OtherBalancesKept(l, r.value, src, dst)
            && r.value.totalSupply == l.totalSupply && r.value.taxed == l.taxed)
  {
    if TransferFrom(l, spender, src, dst, amount).Success? {
      TransferFromMoves(l, spender, src, dst, amount);
    }
  }

  // An approval is what its owner last said, not what was approved before on top of it.
  lemma ApproveExactly(l: Ledger, owner: Address, spender: Address, amount: uint256)
    ensures var l' := Approve(l, owner, spender, amount);
      && Allowance(l', owner, spender) == amount && OtherApprovalsKept(l, l', owner, spender)
      && l'.balances == l.balances && l'.totalSupply == l.totalSupply && l'.taxed == l.taxed
  {}

  lemma MintExactly(l: Ledger, dst: Address, amount: uint256)
    ensures var r := Mint(l, dst, amount);
      && (r.Success? <==> BalanceOf(l, dst) + amount <= MAX_UINT256 && l.totalSupply + amount <= MAX_UINT256)
      && (r.Success? ==>
            && BalanceOf(r.value, dst) == BalanceOf(l, dst) + amount && r.value.totalSupply == l.totalSupply + amount
            && OtherBalancesKept(l, r.value, dst, dst) && r.value.allowances == l.allowances
            && r.value.taxed == l.taxed)
  {}

  // One spender's uses of one approval, one after the other.
  function SpendAll(l: Ledger, spender: Address, src: Address, uses: seq<(Address, uint256)>):
    Result<Ledger, TokenError>
  {
    if uses == [] then Success(l) else
      var before :- SpendAll(l, spender, src, uses[..|uses| - 1]);
      TransferFrom(before, spender, src, uses[|uses| - 1].0, uses[|uses| - 1].1)
  }

  function Amounts(uses: seq<(Address, uint256)>): nat {
    if uses == [] then 0 else Amounts(uses[..|uses| - 1]) + uses[|uses| - 1].1
  }

  // However an approval is used, all that is moved on it and what is left of it are what was approved.
  lemma {:induction false} ApprovalIsUsedUp(l: Ledger, spender: Address, src: Address, uses: seq<(Address, uint256)>)
    requires Allowance(l, src, spender) < MAX_UINT256 && SpendAll(l, spender, src, uses).Success?
    ensures Allowance(SpendAll(l, spender, src, uses).value, src, spender) + Amounts(uses) == Allowance(l, src, spender)
  {
    if uses != [] {
      var init, last := uses[..|uses| - 1], uses[|uses| - 1];
      ApprovalIsUsedUp(l, spender, src, init);
      TransferFromExactly(SpendAll(l, spender, src, init).value, spender, src, last.0, last.1);
    }
  }

  // The test token: an honest ERC-20 that anybody may mint.
  class TestStablecoin {
    var balanceOf: map<Address, uint256>
    var allowance: map<(Address, Address), uint256>
    var totalSupply: uint256

    ghost function Now(): Ledger
      reads this
    {
      Ledger(balanceOf, allowance, totalSupply, false)
    }

    // The call did what `outcome` says: it went through, or it left no trace.
    twostate predicate Did(outcome: Result<Ledger, TokenError>, ok: bool)
      reads this
    {
      ok == outcome.Success? && Now() == if outcome.Success? then outcome.value else old(Now())
    }

    constructor ()
      ensures Now() == Ledger(map[], map[], 0, false)
    {
      balanceOf, allowance, totalSupply := map[], map[], 0;
    }

    method MintTo(dst: Address, amount: uint256) returns (ok: bool)
      modifies this
      ensures Did(Mint(old(Now()), dst, amount), ok)
    {
      var b := if dst in balanceOf then balanceOf[dst] else 0;
      if b + amount > MAX_UINT256 || totalSupply + amount > MAX_UINT256 { return false; }
      balanceOf := balanceOf[dst := b + amount];
      totalSupply := totalSupply + amount;
      return true;
    }

    method ApproveFor(sender: Address, spender: Address, amount: uint256)
      modifies this
      ensures Now() == Approve(old(Now()), sender, spender, amount)
    {
      allowance := allowance[(sender, spender) := amount];
    }

    method TransferTo(sender: Address, dst: Address, amount: uint256) returns (ok: bool)
      modifies this
      ensures Did(Transfer(old(Now()), sender, dst, amount), ok)
    {
      ok := MoveBalance(sender, dst, amount);
    }

    method TransferOnBehalf(sender: Address, src: Address, dst: Address, amount: uint256) returns (ok: bool)
      modifies this
      ensures Did(TransferFrom(old(Now()), sender, src, dst, amount), ok)
    {
      var a := if (src, sender) in allowance then allowance[(src, sender)] else 0;
      if a < amount { return false; }
      var before := allowance;
      if a != MAX_UINT256 {
        allowance := allowance[(src, sender) := a - amount];
      }
      ok := MoveBalance(src, dst, amount);
      if !ok {
        allowance := before;
      }
    }

    method MoveBalance(src: Address, dst: Address, amount: uint256) returns (ok: bool)
      modifies this`balanceOf
      ensures Did(Move(old(Now()), src, dst, amount, amount), ok)
    {
      var before := balanceOf;
      var b := if src in balanceOf then balanceOf[src] else 0;
      if b < amount { return false; }
      balanceOf := balanceOf[src := b - amount];
      var c := if dst in balanceOf then balanceOf[dst] else 0;
      if c + amount > MAX_UINT256 {
        balanceOf := before;
        return false;
      }
      balanceOf := balanceOf[dst := c + amount];
      return true;
    }
  }
}
