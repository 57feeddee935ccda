# Atara Pay: settlement, proved

Atara Pay lets two people settle a conditional payment or an over-the-counter trade through an escrow
contract. The money lives in the contract; the platform keeps offers and orders in its own database and
tells the contract what to do, signing each instruction. This project models both sides and proves what
holds of them for every input, every run and every interleaving.

Run `dafny verify dfyconfig.toml` in this directory.

## What is modelled

**The escrow contract** (`contracts/src/AtaraEscrow.sol`). `EscrowModel` says what every external call does
to the chain's state, as a function that either gives the state afterwards or the error it reverts with.
`AtaraEscrow` holds the contract as a class whose methods update its storage in place, undo their writes by
hand where the chain would, and are proved to do what the functions say. Deposits, listing locks, bindings,
releases, refunds, rulings, signer rotation, and whatever anybody else does to the token contracts are
transactions of one run. The books are kept three ways, by the token contracts' balances, by the positions
and listings, and by the event log, and all three agree in every reachable state (`EscrowBooks`,
`EscrowSteps`, `EscrowTheorems`). `EscrowQuorum` says which signatures count, in terms of what `ecrecover`
answers, `EscrowCalls` what each call needs and does; `EscrowExample` runs it.

**The spending policy contract** (`contracts/src/AtaraSpending.sol`). A window counter that is rolled forward
only when somebody spends stands in for a log of spends. `SpendingProofs` shows the counter to be a cache of
that log, and bounds what can be spent by it. `SpendingCalls` says what a grant, a revocation and a spend need
and do, and that a revocation is for good.

**The order protocol** (`internal/domain/order`, `internal/app`, `internal/settlement`, `internal/store`).
`OrderMachine` is the transition table and the scans over it, `Orders` the rows and the calls the service
makes on them, `Ticks` the scheduler. `OrderRules` says who may do what, event by event, without the table, and
`TickRoutes` where the clock takes an order, without the scheduler's plan. `Platform` puts them beside the escrow contract: a service call is
taken up (checks and chain action), and commits later, or never. Between the two anything may happen: other
calls on the same order, crashes, any transaction of other people. Each call says which of the reads that the
code goes on without were answered: the position, the owner's and the counterparty's rows, the order's terms.
`PlatformCalls` says what each half of each call needs and does. `PlatformBooks` holds the invariant and
`PlatformTheorems` what follows for users in every run.
`PlatformCauses` names the five things a run may do that set the two ledgers apart, and the orders it does them
to; `PlatformReads` traces unpaid completions and lost stock to two of them, `PlatformBacking` every shortfall of
a listing to the other three. `PlatformLimits` says exactly when a return leaks and which crashed calls can be
made again, `PlatformStuck` which happenings leave an order where the scheduler cannot move it, and
`PlatformExample` gives concrete runs in which all this happens. `PlatformService` holds the service's own
methods, which change the database in place.

**Two kernels.** `Snowflake` is the order number generator under an arbitrary clock and its base-32 form;
`Iban` the check digits of ISO 13616-1, by the MOD 97-10 scheme of ISO/IEC 7064.

## What the proofs found

- A call that completes an order settles by the payee it could read. `hydrateAddrs`
  (`internal/app/service.go:283-293`) drops a failed read of a user, `Settle`
  (`internal/settlement/settlement.go:46-49`) takes an empty payee for nothing to do, and the order is completed
  with the coins still in escrow. A completing call leaves the position released if and only if its payee was
  read or it had been released before (`CompletingPaysExactly`, `UnpaidCompletionHappens`). In every run a
  completed order is paid unless a completion of that very order was begun that read no payee while it was not
  paid yet (`CompletedIsPaid`).
- A call that cancels or expires an order without being able to read its terms (`internal/store/orders.go:109-122`)
  keeps its amount off the offer for good, `releaseReservation` (`internal/app/orders.go:412-417`) having nothing to
  go by. A return restocks if and only if the terms were read (`ReturningRestocksExactly`, `LostStockHappens`). In
  every run the stock, the orders that still stand for some of it and what was forgotten in this way are the whole
  lot (`OpenOrdersAndStockAreTheLot`).
- Cancelling or expiring an order returns its reservation even when settlement found its slice in dispute on
  the contract, or already paid out, or could not read it, and so did nothing. The offer is then sold beyond
  its cover. In an uninterrupted call that is exactly when it happens (`ReturnLeaksExactly`); a cancellation
  that began before the binding of the same order and commits after it does the same (`StaleCancelLeaks`).
  Both happen in concrete runs from deployment on (`BackingCanFail`, `OverlapHappens`). Anybody may also bind
  a slice of an open listing to an id of their own, which takes the cover of the offer away
  (`OutsiderTakesTheCover`). Nothing else does: in every run, whatever is disputed, paid out or unread, what is
  missing from a listing are slices of orders that one of these three was done to (`LeaksHaveCauses`), and a sell
  offer with an open listing of which no such slice is still cut is backed (`RunsAreBacked`).
- A call that crashed between its chain action and its commit can be made again if and only if that action was
  none or a refund (`CrashedCallRetriesExactly`). After a binding the order stays at `s1`: the scheduler's only
  call there is to bind again, which the contract refuses for ever, and only its owner's cancelling moves it.
  After a release it stays at `s4`: it can be moved only by a completion that cannot read whom to pay, which
  completes it with no release on record. These two crashes are the only ones that leave an order stuck
  (`CrashSticksExactly`, `StuckForever`, `SchedulerIsRefused`; `CrashedBindHappens`, `StrandingHappens`). Without a
  crash an order is stuck by somebody else who deposits or binds under its id, or settles its position, or by
  arriving at `s1` or `s4` after that was done (`StuckExactly`).
- A releasing vote on a conditional transfer that crashed after its release cannot be repeated while the payee
  can be read, but a later vote may hold the order, which then expires on record although the payee has the
  coins, unless its branch is proof_window (`CrashedVoteCanLapse`, `PaidThenExpiredHappens`).
- A ruling for the buyer carries a score of zero, so the contract carries it out only while its minimum score
  is zero, and a ruling that cannot read the payee completes the order without paying
  (`RulingReleasesExactly`). One that crashes after its release can be followed by the opposite ruling, which is
  then recorded as cancelled (`CrashedRulingCanBeContradicted`; `RefusedRulingHappens`,
  `ContradictedRulingHappens`).
- The scheduler's tick on a buy order in `s1` whose terms cannot be read is one the table does not have, and is
  refused; that is its only such call (`EveryTickLegal`, `RefusedTickHappens`).
- The replay guard of attestations is never what refuses one (`ReplayGuardUnreachable`).
- Offer id zero is accepted when it is locked but read as "no offer" when a slice of it is refunded, so its
  bound amount then exceeds its positions: there is a run that ends with ten bound and no position left that was
  not refunded (`OfferZeroStaysBound`). For every other offer the listing ledger is right in every reachable state
  (`ListingBooksExactly`). Solvency holds all the same.
- `contracts/README.md:114` and the comment at `contracts/src/AtaraEscrow.sol:64` say that a `Hold` verdict moves
  a position into dispute. In the code it reverts with `WrongVerdict`; the model follows the code.

## Reading notes

Hashing is taken to be injective: a digest is what it hashes, as in the definitions of hashStruct and
domainSeparator in EIP-712. Recovering a signer is an arbitrary function of digest and signature. Tokens are
honest ERC-20 ledgers, or ledgers that keep one part in a hundred of what `transferFrom` moves, which the
contracts refuse. Amounts are counted in a token's smallest unit on both sides. Solidity's checked
arithmetic is modelled as a revert. User addresses never change once given, as in the database.

## Model

| member | source | states |
|---|---|---|
| EscrowTheorems.SolventInEveryRun | contracts/src/AtaraEscrow.sol:230-442 | in every reachable state the contract's balance of every token is at least what it owes to live positions and to the free part of listings; the excess is exactly what outsiders sent and what was released to the contract itself; all money in is money out plus money owed |
| EscrowTheorems.NoStuckFunds | contracts/src/AtaraEscrow.sol:370-469 | in every reachable state, at any time and chain id, and whoever else can sign, the listed signers can produce signatures under which any live position is released or refunded, through resolveDispute if it is disputed |
| EscrowTheorems.ClosedListingReturnsTheRest | contracts/src/AtaraEscrow.sol:264-342 | however locks, unlocks, bindings and refunds interleaved, a closed listing without live positions has returned exactly what was locked less what was released |
| EscrowTheorems.ReplayGuardUnreachable | contracts/src/AtaraEscrow.sol:447-453 | an attestation for a live position is never refused as replayed, even if the chain id changed |
| EscrowTheorems.ReleaseExactly | contracts/src/AtaraEscrow.sol:370-382 | a release succeeds if and only if the position is escrowed and a quorum signed a release with a high enough score in time; exactly the amount goes from the contract to the beneficiary, no other account, approval or setting changes, and only this attestation is used up |
| EscrowTheorems.RefundExactly | contracts/src/AtaraEscrow.sol:391-399 | a refund succeeds if and only if the position is escrowed and a quorum signed a refund in time; it pays the payer out of the contract, or leaves the tokens with an open listing, whose bound falls and whose total stays, while a closed one's both fall |
| EscrowTheorems.ResolveDisputeExactly | contracts/src/AtaraEscrow.sol:407-424 | a ruling succeeds if and only if the position is disputed and a quorum signed a refund, or a release with a high enough score; a hold always reverts |
| EscrowTheorems.ConsumeExactly | contracts/src/AtaraEscrow.sol:447-469 | for a live position an attestation is consumed if and only if it is in time and there are addresses, strictly ascending, listed and at least the threshold in number, each of which the chain recovers from the signature at its place; nothing but the used digest changes |
| EscrowTheorems.EverySignatureFormCounts | contracts/src/AtaraEscrow.sol:505-525 | with a threshold of one a listed signer's low-s signature is accepted under recovery id 27 as under 28, and the same written as 0 or 1 |
| EscrowTheorems.BadSignatureRefused | contracts/src/AtaraEscrow.sol:515-521 | one signature with a high s value or a recovery id other than 0, 1, 27 and 28 spoils the whole attestation |
| EscrowTheorems.ConsumeRefusals | contracts/src/AtaraEscrow.sol:447-469 | late is refused as expired, and in time with too few signatures as too few; any other refusal is about who signed or in which order |
| EscrowTheorems.PositionsArePermanent | contracts/src/AtaraEscrow.sol:230-442 | over any further run an order id stays used, its terms never change, and released or refunded is for ever |
| EscrowTheorems.SettledExactlyOnce | contracts/src/AtaraEscrow.sol:370-442 | the log settles an order once if its position is settled and never otherwise, for the position's own token, amount and payee |
| EscrowTheorems.RunKeeps | contracts/src/AtaraEscrow.sol:230-469 | the whole invariant of balances, positions, listings, log, signers and used digests is kept by every run |
| EscrowTheorems.SignerRotationExactly | contracts/src/AtaraEscrow.sol:177-216 | a new signer list is accepted if and only if it comes from the owner, is duplicate-free without address zero, and its threshold is between one and its length; the lookup table is then exactly the list |
| EscrowCalls.DeployExactly | contracts/src/AtaraEscrow.sol:163-216 | deployment succeeds if and only if the signer settings are sound, and gives an open, empty contract owned by whoever deployed it, bound to this address and chain |
| EscrowTheorems.PauseStopsOnlyMoneyIn | contracts/src/AtaraEscrow.sol:184-187 | a pause refuses deposits and listing locks and changes the outcome of no release, refund or ruling |
| EscrowExample.OfferZeroStaysBound | contracts/src/AtaraEscrow.sol:426-442 | a concrete run from deployment on ends with ten bound under listing zero and no position of it left that was not refunded |
| EscrowExample.ListingBooksExactly | contracts/src/AtaraEscrow.sol:317-442 | in every reachable state what was locked under an offer is what was returned plus the listing's total, and its bound is the sum of its slices that were not refunded, if and only if the offer id is not zero |
| EscrowSteps.StepKeeps | contracts/src/AtaraEscrow.sol:163-469 | every transaction that does not revert keeps the invariant |
| EscrowSteps.DoRefundKeeps | contracts/src/AtaraEscrow.sol:426-442 | refunding a live position never underflows and never fails to pay |
| EscrowQuorum.ConsumeAcceptsExactlyQuorums | contracts/src/AtaraEscrow.sol:447-469 | in any state an attestation is accepted if and only if it is in time, unused, and ascending listed addresses, at least the threshold, are what ecrecover answers for its signatures under 27 or 28 and low s; only its digest is then marked used |
| EscrowQuorum.RecoversWhoSigned | contracts/src/AtaraEscrow.sol:505-525 | what is recovered from a signature is the non-zero address that ecrecover answers for it under 27 or 28 with a low s value, and there is none exactly when zero is recovered |
| EscrowQuorum.OneTwinIsLow | contracts/src/AtaraEscrow.sol:513-518 | of a signature and its twin, which the curve takes for the same, exactly one has a low s value |
| EscrowQuorum.QuorumIsThatManySigners | contracts/src/AtaraEscrow.sol:459-468 | a quorum is that many distinct listed signers |
| EscrowQuorum.SettingsAcceptedExactly | contracts/src/AtaraEscrow.sol:195-216 | signer settings are accepted if and only if the list is duplicate-free without zero, the threshold fits it and the minimum score is at most a hundred |
| EscrowQuorum.QuorumCanBeSigned | contracts/src/AtaraEscrow.sol:447-469 | if each listed signer can make ecrecover answer its address, with a low s value, from any accepted signer list signatures can be put in an order that is a quorum |
| EscrowCalls.DepositExactly | contracts/src/AtaraEscrow.sol:230-258 | when a deposit is accepted, the position it makes, that exactly the amount leaves the payer, and that nothing else changes |
| EscrowCalls.LockListingExactly | contracts/src/AtaraEscrow.sol:264-289 | when a lock or top-up is accepted, what it adds, that exactly the amount leaves the maker, and that nothing else changes |
| EscrowCalls.UnlockListingExactly | contracts/src/AtaraEscrow.sol:296-305 | only the maker can take a listing down, always can while it is open, and gets exactly what no order holds |
| EscrowCalls.BindExactly | contracts/src/AtaraEscrow.sol:317-342 | a binding is accepted if and only if it names a beneficiary and an unused id and the free part of an open listing covers it; the maker becomes the payer, exactly that much is bound, and no token moves |
| EscrowCalls.RaiseDisputeExactly | contracts/src/AtaraEscrow.sol:350-358 | a dispute succeeds if and only if the position is escrowed and the sender is its payer or its beneficiary; the position is marked and nothing else changes |
| EscrowCalls.DisputeFreezes | contracts/src/AtaraEscrow.sol:370-424 | while a position is in dispute every release and refund of it is refused, and a transaction changes it if and only if it is a ruling on it that goes through |
| EscrowCalls.DisputedUntilRuled | contracts/src/AtaraEscrow.sol:407-424 | over any run in which no ruling on it goes through a disputed position stays exactly as it is |
| EscrowCalls.MoneyInFaults | contracts/src/AtaraEscrow.sol:230-342 | each error of a deposit, lock or binding names something that is wrong with the call |
| EscrowCalls.ExitFaults | contracts/src/AtaraEscrow.sol:370-424 | each error of a release, refund or ruling names something that is wrong with the call |
| EscrowCalls.OnlyNewOwnerGoverns | contracts/src/AtaraEscrow.sol:171-193 | after an ownership transfer the new owner governs and everybody else is refused |
| EscrowCalls.BindThenRefundRestores | contracts/src/AtaraEscrow.sol:317-342 | binding and then refunding while the listing is open restores every listing and moves no token |
| EscrowCalls.LockThenUnlockRestores | contracts/src/AtaraEscrow.sol:264-305 | locking a new listing and taking it down again restores every account's balance, the contract's included |
| EscrowCalls.MoneyLeavesOnly | contracts/src/AtaraEscrow.sol:14-25 | a transaction that lowers the contract's balance of any token is the maker taking down the listing, by exactly its free part, or a release, refund or ruling signed by at least the threshold of distinct listed signers, by exactly the position's amount |
| EscrowGrowth.StepChainGrows | contracts/src/AtaraEscrow.sol:230-442 | no transaction changes a listing's maker or token, reopens it, or makes a slice of it except by binding |
| AtaraEscrow.Escrow.constructor | contracts/src/AtaraEscrow.sol:163-168 | deploys as the model does, for accepted settings, with the whole invariant holding |
| AtaraEscrow.Escrow.Transact | contracts/src/AtaraEscrow.sol:163-469 | any call on the object does what the model's step says or leaves no trace, keeps the whole invariant, and leaves every token covering what is owed in it |
| AtaraEscrow.Escrow.ReplaceSigners | contracts/src/AtaraEscrow.sol:195-216 | clearing the old list and adding the new one address by address gives exactly the new list, or no change |
| AtaraEscrow.Escrow.SetSigners | contracts/src/AtaraEscrow.sol:177-182 | does what the model says or leaves no trace |
| AtaraEscrow.Escrow.SetDepositsPaused | contracts/src/AtaraEscrow.sol:184-187 | does what the model says or leaves no trace |
| AtaraEscrow.Escrow.TransferOwnership | contracts/src/AtaraEscrow.sol:189-193 | does what the model says or leaves no trace |
| AtaraEscrow.Escrow.Deposit | contracts/src/AtaraEscrow.sol:230-258 | does what the model says or leaves no trace |
| AtaraEscrow.Escrow.LockListing | contracts/src/AtaraEscrow.sol:264-289 | does what the model says or leaves no trace |
| AtaraEscrow.Escrow.UnlockListing | contracts/src/AtaraEscrow.sol:296-305 | does what the model says or leaves no trace |
| AtaraEscrow.Escrow.BindListingLock | contracts/src/AtaraEscrow.sol:317-342 | does what the model says or leaves no trace |
| AtaraEscrow.Escrow.RaiseDispute | contracts/src/AtaraEscrow.sol:350-358 | does what the model says or leaves no trace |
| AtaraEscrow.Escrow.Release | contracts/src/AtaraEscrow.sol:370-382 | does what the model says or leaves no trace, the used attestation included |
| AtaraEscrow.Escrow.Refund | contracts/src/AtaraEscrow.sol:391-399 | does what the model says or leaves no trace, the used attestation included |
| AtaraEscrow.Escrow.ResolveDispute | contracts/src/AtaraEscrow.sol:407-424 | does what the model says or leaves no trace, the used attestation included |
| AtaraEscrow.Escrow.RefundPosition | contracts/src/AtaraEscrow.sol:426-442 | refunds to the open listing, out of the closed one, or to the depositor |
| AtaraEscrow.Escrow.FreeSlice | contracts/src/AtaraEscrow.sol:426-442 | takes a slice off its listing: off the bound of an open one, off bound and total of a closed one, or reverts on underflow |
| AtaraEscrow.Escrow.ConsumeAttestation | contracts/src/AtaraEscrow.sol:447-469 | the loop over signatures finds the first one that cannot be counted |
| AtaraEscrow.Escrow.PullFrom | contracts/src/AtaraEscrow.sol:546-551 | collects with the exact-arrival check |
| AtaraEscrow.Escrow.PushTo | contracts/src/AtaraEscrow.sol:553-557 | pays, or reports that it could not |
| Erc20.MoveConserves | contracts/src/TestStablecoin.sol:52-58 | a move takes the amount from one account, gives what arrives to another, touches nobody else, and loses exactly the tax |
| Erc20.TransferExactly | contracts/src/TestStablecoin.sol:41-58 | a transfer succeeds if and only if the balance covers it and the other end has room; it moves exactly the amount and touches no other balance, approval or the supply |
| Erc20.TransferFromExactly | contracts/src/TestStablecoin.sol:45-58 | transferFrom lowers this one approval by the amount, unless it is the unlimited one, and touches no other approval, balance or the supply |
| Erc20.ApprovalIsUsedUp | contracts/src/TestStablecoin.sol:45-50 | however a limited approval is used, all that is moved on it and what is left of it are what was approved |
| Erc20.MintExactly | contracts/src/TestStablecoin.sol:29-33 | minting raises one balance and the supply by the amount, if neither overflows, and touches nothing else |
| Erc20.TransferFromRefusedOnlyByAllowanceOrBalance | contracts/src/TestStablecoin.sol:45-50 | transferFrom succeeds if and only if approval and balance suffice: it never overflows |
| Erc20.MintSound | contracts/src/TestStablecoin.sol:29-33 | minting never lets more be held than was minted |
| Erc20.TestStablecoin.MintTo | contracts/src/TestStablecoin.sol:29-33 | mints or leaves no trace |
| Erc20.TestStablecoin.ApproveFor | contracts/src/TestStablecoin.sol:35-39 | sets one approval |
| Erc20.TestStablecoin.TransferTo | contracts/src/TestStablecoin.sol:41-43 | transfers or leaves no trace |
| Erc20.TestStablecoin.TransferOnBehalf | contracts/src/TestStablecoin.sol:45-50 | spends the approval and moves, or leaves no trace |
| Erc20.TestStablecoin.MoveBalance | contracts/src/TestStablecoin.sol:52-58 | moves or leaves no trace |
| SpendingProofs.LazyWindowRefinesLog | contracts/src/AtaraSpending.sol:102-180 | with one token and one cycle, through any spends, revokes and re-grants, the effective used amount is the logged sum of the aligned window that contains the moment |
| SpendingProofs.AlignedWindowCapped | contracts/src/AtaraSpending.sol:158-191 | spends in one aligned window are at most the largest cap ever granted |
| SpendingProofs.AnyCycleAtMostTwice | contracts/src/AtaraSpending.sol:158-191 | spends in any stretch of one cycle's length are at most twice that |
| SpendingProofs.SpendsBoundedByWindows | contracts/src/AtaraSpending.sol:158-191 | spends up to a time are at most one largest cap for every window begun by then |
| SpendingProofs.AvailablePredictsSpend | contracts/src/AtaraSpending.sol:158-217 | a spend that is otherwise in order succeeds if and only if its amount is within what available answers at that moment |
| SpendingProofs.SpendMovesExactly | contracts/src/AtaraSpending.sol:176-190 | a spend takes exactly the amount from the account, gives exactly that to somebody else, and touches nobody further |
| SpendingCalls.GrantExactly | contracts/src/AtaraSpending.sol:86-133 | a grant succeeds if and only if its terms make sense and the policy is new or the sender's own; every term is then what was said, what was spent in the window stays unless the token changes, and no other policy changes |
| SpendingCalls.GrantFaultsAre | contracts/src/AtaraSpending.sol:95-118 | each error of a grant names something that is wrong with it |
| SpendingCalls.RevokeExactly | contracts/src/AtaraSpending.sol:141-147 | a revocation succeeds if and only if the sender is the policy's account; it ends the policy's life and leaves its counter, its window and every other policy as they were |
| SpendingCalls.RevokedForGood | contracts/src/AtaraSpending.sol:141-217 | after a revocation, over any run without a successful grant of the same id, every spend under it fails, nothing is available, and the policy is otherwise as it was |
| SpendingCalls.OnlyAccountRevives | contracts/src/AtaraSpending.sol:113-130 | a policy that is not live comes to life only by a grant from its own account |
| SpendingCalls.SpendExactly | contracts/src/AtaraSpending.sol:158-191 | a spend succeeds if and only if the policy is live, unexpired and the sender's, the amount is within single payment, window, approval and balance, and all of it arrives at somebody else; what it charges, moves and uses up, and that nothing else changes |
| SpendingCalls.SpendFaultsAre | contracts/src/AtaraSpending.sol:158-190 | each error of a spend names something that is wrong with it |
| AtaraSpending.Spending.Grant | contracts/src/AtaraSpending.sol:86-133 | grants as the model does or leaves no trace |
| AtaraSpending.Spending.Revoke | contracts/src/AtaraSpending.sol:141-147 | revokes as the model does or leaves no trace |
| AtaraSpending.Spending.Spend | contracts/src/AtaraSpending.sol:158-191 | spends as the model does or leaves no trace, the rolled window included |
| AtaraSpending.Spending.ChargeWindow | contracts/src/AtaraSpending.sol:167-176 | rolls the window by whole cycles and charges it |
| OrderMachine.CheckExactly | internal/domain/order/machine.go:120-130 | a transition is accepted if and only if some edge leads to the target, and its terminal is the target's own, whichever edge is met first |
| OrderMachine.ApplyExactly | internal/domain/order/machine.go:133-145 | what an accepted transition does to state and terminal, and exactly when it is refused |
| OrderMachine.EveryEdgeOk | internal/domain/order/machine.go:25-97 | every row stays within its kind, leaves no ended state, ends the order as its target says, and brings it nearer to its end unless it is the hold vote |
| OrderRules.CheckIsAllowed | internal/domain/order/machine.go:25-130 | a transition is accepted if and only if the rules, given event by event as who may act and from where to where, allow it; no row more and no row less |
| OrderRules.RolesByState | internal/domain/order/machine.go:25-97 | in awaiting_me neither counterparty nor agent can do anything; in releasing only the agents act, and they act nowhere else |
| OrderRules.RolesByEvent | internal/domain/order/machine.go:25-97 | confirming, cancelling and accepting are the owner's alone, evidence the counterparty's, the vote the agents', ticks and bindings the system's |
| OrderRules.ReleaseBegins | internal/domain/order/machine.go:25-56 | over everything that may be tried on it a conditional order comes to releasing only by its owner's confirmation or by a tick of the system |
| OrderRules.PayeeCannotHurry | internal/domain/order/machine.go:37-47 | whatever counterparty and agents try on an order in awaiting_me, in any number, it stays where it is |
| OrderMachine.LegalFlow | internal/domain/order/machine.go:66-97 | an OTC order is bound only from s1, which leads nowhere but to escrow or cancelled; it enters escrow only by a binding or a deposit and completes only from s4, which leads nowhere else |
| OrderMachine.LifeKeeps | internal/domain/order/machine.go:133-168 | whatever is tried on an order, its terminal matches its state and it has passed the milestones its state stands for |
| OrderMachine.CompletedOnlyInOrder | internal/domain/order/machine.go:25-97 | an order is completed only by a ruling, or after all its milestones in order: accepted, bound or funded, receipt, verified, released |
| OrderMachine.TerminalIsReadOnly | internal/domain/order/machine.go:133-168 | an ended order moves if and only if it is in dispute and the move is a ruling |
| OrderMachine.TargetsExactly | internal/domain/order/machine.go:109-117 | the listed targets are exactly the states some edge leads to |
| OrderMachine.ScanEdges | internal/domain/order/machine.go:120-130 | the loop over the table finds the first edge that fits |
| OrderMachine.Targets | internal/domain/order/machine.go:109-117 | the loop over the table lists the targets in its order |
| OrderMachine.HasActor | internal/domain/order/machine.go:170-177 | whether an actor is in the list |
| OrderMachine.Order.ApplyEvent | internal/domain/order/machine.go:133-145 | moves the order and clears its deadline, or leaves it alone |
| OrderMachine.Order.ResolveDispute | internal/domain/order/machine.go:155-168 | ends a dispute and clears the deadline, or leaves the order alone |
| Orders.AdvancedKeepsReady | internal/app/orders.go:293-342 | every call of the service keeps the choice of funding on sell orders in s1 and a receipt on orders in s3v |
| OrderRules.CallsAccepted | internal/app/orders.go:225-410 | every call of the service but the clock's (confirm, evidence, cancel, dispute, accept, receipt, verify, binding, deposit, vote) is accepted in exactly the states it is meant for, as long as the order has not ended |
| OrderRules.CallLeaves | internal/app/orders.go:225-417 | what an accepted call leaves: a receipt only by a receipt call, a funding choice only by a seller's acceptance, stock given back exactly when the trade is off |
| Ticks.EveryTickLegal | internal/app/orders.go:475-595 | every open order is due at some time and the scheduler's call on it is one of the service's, unless it waits for a deposit or a buy order's payee or receipt could not be read; the call is in the table if and only if it is not the cancelling of a buy order in s1 whose terms could not be read |
| TickRoutes.TickStartsExactly | internal/app/orders.go:475-521 | with its terms read, and however old the row it has read, a tick begins the release of a conditional order if and only if that row was due (an immediate order in locked, an on-date one in awaiting_counterparty, a proof_window one in awaiting_me) and the order still waits |
| TickRoutes.FreshTickStartsExactly | internal/app/orders.go:475-521 | a scheduler that has read the row as it is begins an immediate release out of locked, an on-date one out of awaiting_counterparty, a proof_window one out of awaiting_me, and no other |
| TickRoutes.UserStartsExactly | internal/app/orders.go:225-232 | of everything the two parties ask for only the owner's confirmation begins a release, and exactly in awaiting_me |
| TickRoutes.OnConfirmNeedsConfirmation | internal/app/orders.go:475-521 | over any run of ticks, stale or not, and calls of both parties, with its terms read, an order that waits for a confirmation is releasing or released only after its owner confirmed |
| TickRoutes.TicksEndAs | internal/app/orders.go:475-652 | where every order ends that is left to the clock, by its kind, branch, side, state, funding and whether a vote held it |
| TickRoutes.UnconfirmedExpires | internal/app/orders.go:507-518 | left to the clock, an order that waits for a confirmation expires |
| TickRoutes.WaitsExactly | internal/app/orders.go:441-595 | the scheduler leaves an open order alone exactly while its deposit has not settled, or while a buyer's payee or receipt cannot be read |
| TickRoutes.TicksAreGrounded | internal/app/orders.go:441-652 | a tick records a deposit only if it has settled, binds only with a payee, verifies only with a receipt, carries the score of the vote, and gives stock back exactly when it ends a trade |
| TickRoutes.BlindTicksAreBlind | internal/app/orders.go:475-595 | a tick that cannot read the terms begins no release and moves no buyer's trade but to its end |
| TickRoutes.DeadlinesAre | internal/app/service.go:92-149 | which delay each open order is given, and that it is given one |
| Ticks.UnlistedTickFails | internal/app/orders.go:531-541 | the tick out of s1 for want of funding is refused: it would strand an unfunded sell order, and does so a buy order whose terms cannot be read |
| Ticks.TickIsAdvance | internal/app/service.go:162-256 | what a tick commits is exactly the row after it |
| Ticks.CommitsBounded | internal/app/orders.go:475-595 | ticks that move an order are at most its distance from the end plus two for every hold vote |
| Ticks.TicksTerminate | internal/app/orders.go:475-652 | with deposits that settle and chain calls that succeed an order ends after at most 5 + 2h ticks, h being its hold votes |
| Ticks.TickBoundIsMet | internal/app/orders.go:475-652 | the bound is reached: a held-up order is still open after 4 + 2h ticks |
| Ticks.OnlyProofWindowRepeats | internal/app/orders.go:507-518 | the only way back is from releasing to awaiting_me, and the next tick there leads on if and only if the branch is proof_window and can be read |
| Ticks.ConsensusScore | internal/app/orders.go:657-668 | the score is at most a hundred, a hundred exactly when all pass, and reaches a minimum exactly when that share of the votes passes |
| PlatformTheorems.TwoLedgerEquation | internal/app/offers.go:252-278 | for every open sell offer in every reachable state, whatever anybody bound, the listing's free part is the offer's remaining quantity plus what was locked on top plus what orders count for without a slice, less what has leaked, less what others bound |
| PlatformTheorems.BackedExactly | internal/app/orders.go:598-619 | in every reachable state an offer is backed if and only if what has leaked and what others bound is covered by what was locked on top and by orders that count without being about to be bound |
| PlatformBacking.RunsAreBacked | internal/store/offers.go:104-125 | in every run, under any interleaving and crash, a sell offer with an open listing is backed if and only if the slices cut in it by returns begun over a slice left alone, by bindings during a return, and by others are covered by what was locked on top and by orders that count without being about to be bound; so it is whenever no such slice is still cut |
| PlatformBacking.LeaksHaveCauses | internal/app/service.go:178-217 | in every run what has leaked is exactly the sum over the orders whose return was begun over a slice that settlement left alone, that the platform bound during their return, or whose id somebody else bound; and what is cut for no order is the sum over the last of these |
| PlatformBacking.LeakedIsLeftBehind | internal/settlement/settlement.go:54-75 | while only the platform binds, and never during a return of the same order, what has leaked is exactly the sum over the returns begun over a slice left alone, and nothing is cut for no order |
| PlatformTheorems.ReservationsConserved | internal/store/offers.go:106-125 | in every reachable state the remaining quantity plus what orders count for is the whole lot; never oversold; active means something left, filled means nothing; only orders that a call ended as cancelled or expired stop counting |
| PlatformCalls.RestockedExactly | internal/store/offers.go:106-125 | stock is never sold below nothing; an offer that is not delisted is filled exactly when nothing is left; a delisted one stays delisted |
| PlatformCalls.OfferExactly | internal/app/offers.go:112-278 | an offer is taken up if and only if it is new, for something, and, to sell, has an open listing of the maker's wallet in that coin with as much free |
| PlatformCalls.TakeExactly | internal/app/offers.go:347-383 | a take is taken up if and only if the offer is open and not the taker's own; the new row is the taker's, on the other side of the maker's, at match |
| PlatformCalls.TakeCommitsExactly | internal/store/offers.go:106-125 | a take commits if and only if so much is still to be had, and takes exactly that off this offer |
| PlatformCalls.DelistedForGood | internal/app/offers.go:281-355 | in every run a delisted offer stays delisted and every take of it is refused |
| PlatformCalls.AdvanceExactly | internal/app/service.go:162-194 | a call is taken up if and only if the rules allow it, a binding can be made, and the contract does what is asked of it; then only the contract has moved and the call waits, without its reservation exactly if the terms of a trade could not be read |
| PlatformCalls.SettlesAs | internal/settlement/settlement.go:40-80 | a completion is settled by a release of this order if there is anybody to pay, what is called off by a refund if the contract is seen to hold it, anything else by nothing |
| PlatformCalls.RulingExactly | internal/app/orders.go:711-736 | a ruling is taken up if and only if the order is in dispute and the contract does what it asks for, without a score |
| PlatformCalls.AdvanceCommitsExactly | internal/app/service.go:196-251 | a waiting call commits if and only if the rules still allow it; the row is the call's, the chain action joins those on record, and the amount goes back on offer exactly if the reservation is carried |
| PlatformTheorems.RecordedReleaseIsPaid | internal/app/service.go:216-230 | under any interleaving and crash and whatever others bind, an order with a release on record has its position released, once, to its beneficiary, on the log |
| PlatformTheorems.CompletedBuyIsTheTakers | internal/settlement/settlement.go:90-102 | in every reachable state a completed order whose taker bought has a slice of that offer's listing, in the order's amount, for the taker and nobody else, and if a release is on record that is what was paid |
| PlatformReads.CompletingPaysExactly | internal/settlement/settlement.go:43-52 | a call that completes an order leaves its position released if and only if its payee was read with an address, or it had been released before |
| PlatformReads.ReturningRestocksExactly | internal/app/orders.go:412-417 | a call that cancels or expires an OTC order gives its amount back to the offer if and only if it read the order's terms, and ends the order either way |
| PlatformReads.CompletedIsPaid | internal/app/service.go:178-217 | in every run a completed order has its position released, once, on the log, unless a completion of that very order was begun that could not read whom to pay while it was not paid yet |
| PlatformReads.CompletedBuyPaidTaker | internal/settlement/settlement.go:42-52 | in every run, with the same exception, a completed order whose taker bought has paid the order's amount from that offer's listing to the taker |
| PlatformReads.OpenOrdersAndStockAreTheLot | internal/store/offers.go:106-125 | in every run what is left of an offer, plus the amounts of the orders that did not end cancelled or expired by a call, plus those of orders a return of which could not read the terms and whose stock was forgotten, is the whole lot |
| PlatformTheorems.EveryReachableOrderIsDue | internal/app/service.go:92-149 | every open order of every reachable state has a deadline, and a tick that is in the table if and only if it is not a buy order in s1 whose terms could not be read |
| PlatformBooks.HappeningKeeps | internal/app/service.go:162-256 | every half of every service call, every crash and every foreign transaction, bindings included, keeps the invariant across both ledgers |
| PlatformBooks.BeginAdvanceKeeps | internal/app/service.go:167-194 | checks and chain action of a call keep it |
| PlatformBooks.CommitKeeps | internal/app/service.go:196-251 | the commit of a call keeps it, whatever happened since |
| PlatformBooks.SettlePaysExactly | internal/settlement/settlement.go:40-52 | settling a completion leaves the position released if and only if the payee was read or it had been released before |
| PlatformBooks.RulingStored | internal/app/orders.go:741-767 | a ruling that commits keeps the invariant and never returns a reservation |
| PlatformBacking.ReturningRefundsExactly | internal/settlement/settlement.go:54-75 | after a call that cancels or expires an order its slice is refunded if and only if it was before, or it was escrowed and could be read |
| PlatformLimits.ReturnLeaksExactly | internal/settlement/settlement.go:54-75 | an uninterrupted cancellation or expiry leaks its amount if and only if it read the terms and its slice is disputed on the contract, already paid out, or escrowed but not readable |
| PlatformLimits.StaleCancelLeaks | internal/app/service.go:178-217 | a cancellation begun before a binding and committed after it leaves the slice escrowed under a cancelled order, and leaks its amount if and only if it read the terms |
| PlatformLimits.ReturnIsRetrySafe | internal/settlement/settlement.go:54-75 | a cancellation or expiry that could read the position and crashed succeeds when made again, with any seal, and does nothing on the chain |
| PlatformLimits.CrashedCallRetriesExactly | internal/app/service.go:178-217 | a call that crashed between chain action and commit can be made again if and only if the action was none or a refund; after a binding none succeeds, after a release only one that cannot read whom to pay |
| PlatformStuck.CrashSticksExactly | internal/app/service.go:178-217 | a crash leaves an OTC order stuck, bound at s1 or settled at s4, if and only if the call had bound or released, or it was stuck before |
| PlatformStuck.StuckExactly | internal/app/service.go:162-256 | over every kind of happening, an order is stuck afterwards if and only if it was and no call on it is begun, or somebody else makes a position under its id at s1 or settles its position at s4, or the last call under way on it crashes, fails or arrives there |
| PlatformStuck.StuckForever | internal/app/service.go:178-194 | a stuck order stays so whatever happens, unless its owner cancels it at s1 or a completion at s4 cannot read whom to pay |
| PlatformStuck.SchedulerIsRefused | internal/app/orders.go:531-592 | no call of the scheduler on an order stuck at s1 ever succeeds, nor on one stuck at s4 while it can read whom to pay |
| PlatformStuck.WayOutOfS4IsOpen | internal/settlement/settlement.go:46-49 | a completion that cannot read whom to pay always goes through on an order stuck at s4 and completes it without a release on record |
| PlatformStuck.WayOutOfS1 | internal/app/orders.go:245-252 | the owner's cancelling of an order stuck at s1 goes through if and only if there is nothing to refund, as far as it can read, or the refund is signed |
| PlatformStuck.CrashedVoteCanLapse | internal/app/orders.go:622-652 | a crashed releasing vote can be followed by a hold and an expiry that are both recorded without touching the chain, although the payee has the coins; the scheduler expires it if and only if it does not read the branch as proof_window |
| PlatformLimits.RulingReleasesExactly | internal/app/orders.go:711-736 | a ruling for the buyer goes through if and only if the payee could not be read, or the contract asks for no score, the position is escrowed, and the seal is good |
| PlatformLimits.CrashedRulingRetriesExactly | internal/app/orders.go:733-767 | a crashed ruling can be made again if and only if it had not released, and after a release only by one that cannot read whom to pay |
| PlatformLimits.CrashedRulingCanBeContradicted | internal/app/orders.go:711-767 | a crashed ruling for the buyer can be followed by one for the seller that is recorded as cancelled |
| PlatformExample.BackingCanFail | internal/settlement/settlement.go:54-75 | a concrete run with every read answered and without overlapping calls, crashes or foreign bindings, in which the buyer disputes on the contract and then cancels, leaves ten tokens on offer and none free |
| PlatformExample.OverlapHappens | internal/app/service.go:178-217 | a concrete run in which a cancellation overlaps the binding leaves an escrowed slice under a cancelled order |
| PlatformExample.OutsiderTakesTheCover | contracts/src/AtaraEscrow.sol:307-342 | a concrete run in which somebody else binds the listing leaves ten tokens on offer and none free before there is any order |
| PlatformExample.StrandingHappens | internal/app/orders.go:585-592 | a concrete run with one crash leaves the coins paid and the order stuck at s4 |
| PlatformExample.CrashedBindHappens | internal/app/orders.go:598-619 | a concrete run with one crash leaves the slice bound and the order stuck at s1 |
| PlatformExample.UnpaidCompletionHappens | internal/app/service.go:283-293 | a concrete run with one failed read of the buyer's row leaves the order completed and the coins in escrow |
| PlatformExample.LostStockHappens | internal/store/orders.go:109-122 | a concrete run with one failed read of the order's terms leaves nothing of the offer although its only order is cancelled |
| PlatformExample.PaidThenExpiredHappens | internal/app/orders.go:475-521 | a concrete run, funded and ticked as the scheduler does, with one crashed vote leaves a conditional transfer expired on record and paid on the contract |
| PlatformExample.RefusedTickHappens | internal/app/orders.go:531-541 | a concrete run reaches a buy order in s1 on which the scheduler's call is refused, whoever sends it, when its terms cannot be read |
| PlatformExample.RefusedRulingHappens | internal/app/orders.go:729-736 | a concrete run reaches a dispute over coins in escrow in which, the contract asking for a score, no ruling for the buyer that reads whom to pay goes through |
| PlatformExample.ContradictedRulingHappens | internal/app/orders.go:711-767 | a concrete run with one crashed ruling leaves an order cancelled on record and the buyer with the coins |
| PlatformService.UninterruptedKeeps | internal/app/service.go:162-256 | an uninterrupted call keeps the invariant |
| PlatformService.UninterruptedRulingKeeps | internal/app/orders.go:711-767 | an uninterrupted ruling keeps the invariant |
| PlatformService.Service.TakeStock | internal/store/offers.go:106-125 | changes stock and status, or refuses to oversell and writes nothing |
| PlatformService.Service.AdvanceAuth | internal/app/service.go:162-256 | check, chain action and commit in one go, with everything or nothing written to the database; what could not be read is gone on without |
| PlatformService.Service.CommitAdvance | internal/app/service.go:197-251 | the transaction writes row, chain record and reservation together or not at all |
| PlatformService.Service.ResolveDispute | internal/app/orders.go:711-767 | settles by the payee it could read, then ends the dispute |
| Snowflake.Node.Next | internal/snowflake/snowflake.go:52-76 | what one call does to the stamp, for any clock; the wait ends if the clock ever passes the last stamp |
| Snowflake.IdsIncrease | internal/snowflake/snowflake.go:52-76 | later calls on one node give larger ids whatever the clock does |
| Snowflake.NodesNeverCollide | internal/snowflake/snowflake.go:42-76 | ids of nodes with different numbers never collide |
| Snowflake.IdFields | internal/snowflake/snowflake.go:75-81 | the millisecond, node and sequence number can be read back from an id |
| Snowflake.FieldsDoNotOverlap | internal/snowflake/snowflake.go:75-81 | for every clock, the shifted fields combined by bitwise or are the 64-bit word that stands for the id as a sum |
| Snowflake.IdFits | internal/snowflake/snowflake.go:9-14 | for 41 bits of milliseconds an id is a positive 63-bit number |
| Snowflake.EncodingKeepsOrder | internal/snowflake/snowflake.go:85-103 | codes sort exactly as the numbers do and no two numbers share one |
| Snowflake.CodesReadBack | internal/snowflake/snowflake.go:83-103 | every 64-bit number has a code of thirteen of Crockford's characters, which are the digits and the capitals but I, L, O and U, and can be read back from it |
| Snowflake.CodeIsDigit | internal/snowflake/snowflake.go:83-85 | there are 32 characters, and every digit and every capital but I, L, O and U stands at the place of its value |
| Snowflake.RefsSortByTime | internal/snowflake/snowflake.go:52-103 | order numbers of one node sort as strings in the order in which they were given out |
| Snowflake.Encode | internal/snowflake/snowflake.go:95-103 | fills the buffer with the thirteen base-32 digits |
| Iban.RemainderIsModulo | internal/app/bank.go:27-47 | the running remainder is the full decimal expansion modulo 97 for every length |
| Iban.ValuesAreTheTable | internal/app/bank.go:32-40 | a character counts as its place among the ten digits and the 26 letters |
| Iban.StandardExample | internal/app/bank.go:25-47 | the example of the standard passes with exactly those check digits that make its remainder one, 82 among them |
| Iban.IbanOk | internal/app/bank.go:27-47 | true if and only if all characters are valid and the rearranged expansion is 1 modulo 97 |
| Iban.SubstitutionCaught | internal/app/bank.go:25-47 | one digit for another digit or one letter for another letter, anywhere, is caught |
| Iban.SwapCaught | internal/app/bank.go:25-47 | two different neighbours of one kind in the wrong order are caught, but for the fourth and fifth character |
| Iban.LayoutDoesNotMatter | internal/app/bank.go:55 | blanks, dashes and small letters anywhere make no difference |
| Iban.CheckAccount | internal/app/bank.go:54-79 | exactly which account numbers are accepted as typed in, with which fault the others are refused, and how they are masked |
| EscrowTheorems.OwnerMovesNoMoney | contracts/src/AtaraEscrow.sol:177-193 | helper, read off the definitions: a governance call needs the owner and changes no token, position, listing, used attestation or log entry |
| EscrowCalls.GovernanceExactly | contracts/src/AtaraEscrow.sol:184-193 | helper, read off the definitions: pausing and passing on the ownership are the owner's alone, need a new owner other than zero, and change just that |
| EscrowCalls.UnlockAndDisputeFaults | contracts/src/AtaraEscrow.sol:296-358 | helper, read off the definitions: each error of taking a listing down or raising a dispute names what is wrong |
| Erc20.ApproveExactly | contracts/src/TestStablecoin.sol:35-39 | helper, read off the definitions: an approval is what its owner last said, and touches nothing else |
| OrderRules.RulingLeaves | internal/domain/order/machine.go:147-168 | helper, read off the definitions: a ruling is for disputes and gives the order to the payee or back |
| PlatformCalls.PayeeIs | internal/settlement/settlement.go:83-103 | helper, read off the definitions: who is paid, by kind, side and what could be read |
| PlatformCalls.DelistExactly | internal/app/offers.go:322-331 | helper, read off the definitions: taking an offer down changes its status and nothing else |
| PlatformCalls.FundingExactly | internal/app/orders.go:130-185 | helper, read off the definitions: choosing how to fund is for conditional orders in fund and takers who sell in s1 |
| PlatformCalls.ConditionalStarts | internal/app/orders.go:78-92 | helper, read off the definitions: a conditional order starts unfunded in fund |
| Snowflake.EpochIsNewYear2024 | internal/snowflake/snowflake.go:22-25 | helper, read off the definitions: the numbers count from the first of January 2024 |
| SpendingProofs.OnlyLivePoliciesSpend | contracts/src/AtaraSpending.sol:205-224 | helper, read off the definitions: only a live policy can be spent from, and any other has nothing available |
| AtaraSpending.Spending.AvailableNow | contracts/src/AtaraSpending.sol:205-217 | helper, read off the definitions: computes what is available |

## Left out

- Hostile or re-entrant tokens: the token contracts are ledgers that do what ERC-20 says, or keep a tax.
- EIP-712 encoding, ECDSA and signatures of another length than 65 bytes: a digest is what it hashes, recovery is an arbitrary function behind the checks on s and v.
- The contracts' governance and policy events: the escrow log holds the events that move or settle money, with token and offer added to each, and a Credited entry for transfers made by others.
- Tokens that were at the contract's address before it was deployed: its balances start at zero, and what is sent afterwards counts as surplus.
- SpendingProofs.LazyWindowRefinesLog: one token and one cycle per policy; a grant that changes either restarts or re-cuts the windows.
- Snowflake.IdOf: an unbounded sum; FieldsDoNotOverlap ties it to the 64-bit word, and IdFits says that for 41 bits of milliseconds the word is the id itself.
- The mutex of the order number generator: calls on one node come one after another.
- Iban.CheckAccount: the capitals of characters beyond ASCII are an arbitrary function.
- Platform.BeginOffer: only listings the maker locked with their own wallet; locking on a maker's behalf belongs to the demonstration chain.
- Platform.BeginTake: any amount may be asked for; lot sizes, prices and rounding decide which, and the reservation decides whether it fits.
- Platform.Next: an offer may be delisted at any time, a superset of what the service allows.
- Deposits of takers who sell and of payers of conditional orders: they are transactions of others on the contract, whose amounts and beneficiaries nothing is proved of.
- Confirmation tokens, permission checks on who may call which endpoint, allowances, fees, merchant counters, scores and messages: they can only refuse a call, or record it.
- Read errors of the chain and the database: the reads that the code goes on without are modelled (position, owner, counterparty, terms, receipt); a call that stops at any other is one that was never begun, or one that crashed.
- HTTP, administration, KYC, seeding, the demonstration chain and the RPC plumbing of the real one.
