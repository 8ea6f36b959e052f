# A verified model of the TreasureNet contracts

The project models six contract systems of the repository as Dafny state machines and proves what
holds over all their runs. Each system comes in the same three layers.

- *Model*: the state as datatypes and every transaction as a function from a state to
  `Option<State>`; `None` is a revert. A run is any sequence of calls by any senders, each some time
  after the one before. No precondition is put on calls: bad ones revert and change nothing.
- *Properties*: the invariants kept by every transaction, and the main results about whole runs. The
  modules named Outcomes say what each transaction gives, and when, by the amounts before and after; a
  rounded amount is there a parameter between two bounds (`Prelude.IsFloor`), whatever computes it.
- *Contracts*: classes whose fields are updated in place, with the loops of the source. Every method
  is proved to compute the transaction of the same name, reverts included, so that everything proved
  about the model holds for the object.

| files | system |
|---|---|
| Prelude | mappings, sums, rounding arithmetic |
| UstnModel, UstnInvariants, UstnConservation, UstnLoans, UstnSavings, UstnAuctions, UstnLots, UstnOutcomes, UstnExamples, UstnContracts | the USTN bank, its auction house and the USTN ledger |
| GravityModel, GravitySafety, GravityContract | the Gravity bridge |
| AirdropModel, AirdropSafety, AirdropRuns, AirdropDues, AirdropOutcomes, AirdropExamples, AirdropContract | airdrop vesting with multi-signature proposals |
| TCashModel, TCashInvariants, TCashResults, TCashLiquidation, TCashLocks, TCashAccounts, TCashOutcomes, TCashExamples, TCashContracts | TCash loans, their auction house and the TCash token |
| TokenLocker | batched claims of locked records |
| Share, ShareContract | the profit split of one producer |

Conventions. `uint256` is `nat`, and a subtraction that would go below zero reverts. Oracle prices,
governance parameters, role lookups, block time and the caller are inputs of a call. Hashes are the
values they are taken of, so hashing is injective; signature recovery is a predicate the bridge is
given. Transfers of UNIT are moves on a balance kept by the paying contract.

Where the code disagrees with its documentation, or with a rule one would expect of it, the model follows
the code:

- The airdrop documentation promises a time lock before a proposal is executed (README.md:115,
  docs/airdrop/README.md:261). The check is commented out in contracts/Airdrop/Airdrop.sol:723.
  `AirdropSafety.TimeLockNeverDelays` shows the lock has no effect, and
  `AirdropSafety.ExecutesExactlyWhen` gives the exact conditions.
- tcash.md:730 asks that loans settled or under liquidation cannot be repaid. `repay` does not look at
  the status. `TCashLiquidation.RepaysExactlyWhen` gives the exact conditions: for a loan that an
  interest period has closed, the rule holds exactly where its borrower has nothing else borrowed
  (`ClosedOnlyLoanCannotBeRepaid`), and it fails on the run of
  `TCashExamples.LiquidatedLoanRepaid`.
- tcash.md:803 asks that no collateral is added to a liquidated loan. `collateralTopUp` does not check,
  and puts such a loan back in progress, so that it can be auctioned a second time
  (`TCashExamples.LoanAuctionedTwice`); until then it stays as it is
  (`TCashLiquidation.OverUntilRevived`).
- `bidCost` compares a bid with the whole balance, locked or not, so more can be locked than is held
  (`TCashExamples.LockedBeyondBalance`); `TCashLocks.BackedExactlyWhen` says exactly on which runs not.
- A closed loan leaves its borrower's totals once for every closing, and a revived one is not put back.
  So totalBorrowed and TLA are not the debt of the live loans: `TCashAccounts.BorrowedExact` gives the
  exact difference, `TCashAccounts.ShiftsExactlyWhen` the calls that move it. Where it is its
  borrower's only loan it then cannot close again (`TCashAccounts.ClosesExactlyWhen`, `TCashExamples.RevivedOnlyLoanCannotClose`).
- Ratios are capped at a hundred whole monthly pools, not one, so the airdrop can owe more than it has
  (`AirdropExamples.FullRatioNeverPaid`); `AirdropDues.EveryonePaidExactlyWhen` says exactly when.
- The total ratio after a proposal must not exceed the cap (docs/airdrop/README.md:43), but `propose`
  misjudges repeated addresses (`AirdropSafety.RunningTotalIs`), so it refuses lists that fit and accepts
  lists that do not (`AirdropExamples.DeployedRepeatsMislead`).
- tcash.md gives a risk factor of one up to five uncleared loans and a credit limit from the average
  TAT; the code uses two loans and a third of the total, and sets available credit against
  `totalBorrowed`, not TLA.
- `loansBack` zeroes a loan's interest before subtracting it from `interestMint`. So `interestMint`
  does not equal the outstanding interest (`UstnExamples.InterestMintExceeds`);
  `UstnConservation.InterestMintExact` states by exactly how much it exceeds it, and
  `UstnConservation.GapWidensExactlyWhen` on which calls.
- The bank's supply helpers can be called by anyone, and `mintBack` lowers the supply too, so the USTN
  supply need not cover the outstanding debt (`UstnExamples.SupplyFallsShort`);
  `UstnConservation.SupplyExact` and `SupplyCoversDebt` say exactly when it does.
- `deleteHolder` moves the last holder without updating its index, and `splitHolder` to oneself
  creates pieces (`Share.StaleIndexLosesHolder`, `Share.SelfSplitCreatesPieces`).
  `Share.DeleteKeepsIff`, `Share.SelfSplitKeepsIff` and, over runs, `Share.SharesAddUp` say exactly
  when the table stays right.

## Model

| member | source | states |
|---|---|---|
| UstnConservation.PrincipalConserved | contracts/USTN/USTNFinance.sol:121-477 | in every reachable state the lending limit plus the principal of all live loans plus the principal in unsettled auctions is the reserve of deposits less that of withdrawals |
| UstnConservation.UnitSolvent | contracts/USTN/USTNFinance.sol:215-477 | the bank's UNIT is exactly the collateral of live loans and unsettled auctions plus what callers sent along with repayments, so it always covers them |
| UstnConservation.InterestMintExact | contracts/USTN/USTNFinance.sol:318-335 | interestMint exceeds live interest plus unsettled auction interest by exactly the interest repayments cleared without deducting it |
| UstnConservation.GapWidensExactlyWhen | contracts/USTN/USTNFinance.sol:318-335 | a call widens the gap of interestMint exactly when it is a repayment that covers a positive interest |
| UstnExamples.InterestMintExceeds | contracts/USTN/USTNFinance.sol:318-335 | a concrete run of deposit, loan and payment of the interest after which the gap is positive |
| UstnConservation.LiquidationBooksInterest | contracts/USTN/USTNFinance.sol:375-462 | one liquidation raises distributable interest, interestMint and supply by one amount, the growth of all outstanding interest; principal and collateral pass to the auctions undiminished and one lot opens per closed loan |
| UstnConservation.SupplyExact | contracts/USTN/USTNFinance.sol:492-507 | after every run the supply exceeds all debt by the supply at the start, plus debt repaid, plus what was minted elsewhere less what was taken off the supply there |
| UstnConservation.SupplyCoversDebt | contracts/USTN/USTN.sol:171-252 | the supply covers all debt exactly while that balance is not negative, in particular where nobody but the auction house takes anything off the supply |
| UstnExamples.SupplyFallsShort | contracts/USTN/USTNFinance.sol:497-499 | a concrete run on which a call from outside leaves the supply short of the debt |
| UstnConservation.RepayNeverShort | contracts/USTN/USTNFinance.sol:295-363 | in every reachable state a repayment succeeds exactly when its stated guards hold: no counter and no balance is ever short |
| UstnConservation.EveryClosingAccounted | contracts/USTN/USTNFinance.sol:421-459 | closed loans are as many as lots ever opened plus full repayments |
| UstnLots.LotsStandForLoans | contracts/USTN/USTNFinance.sol:421-459 | after every run lots and loans closed with a debt correspond one to one: lot n offers exactly the collateral of the n-th auctioned loan for exactly its debt, and no loan is auctioned twice |
| UstnConservation.StepBalances | contracts/USTN/USTNFinance.sol:121-477 | every transaction moves limit, interest, collateral and closings exactly by its own flow |
| UstnInvariants.RunKeeps | contracts/USTN/USTNFinance.sol:219-238 | over every run borrowers and depositors are listed once, interest stays within debt, and lots are sound |
| UstnLoans.CompoundAtLeast | contracts/USTN/USTNFinance.sol:391-404 | k periods earn at least k times the first period's interest |
| UstnLoans.CompoundAtMost | contracts/USTN/USTNFinance.sol:391-404 | rounding down never exceeds exact compounding over k periods |
| UstnLoans.AccrueTwice | contracts/USTN/USTNFinance.sol:382-419 | accruing at one time and again later is accruing once at the later time |
| UstnLoans.CompoundingRun | contracts/USTN/USTNFinance.sol:382-419 | over any run a live loan that is not repaid owes what one accrual at the last liquidation gives |
| UstnLoans.ScheduleIndependent | contracts/USTN/USTNFinance.sol:382-419 | two runs whose last liquidation is at the same time leave the same debt, interest and timestamp |
| UstnLoans.LiquidationClassifies | contracts/USTN/USTNFinance.sol:421-459 | after liquidation a loan is normal, in warning or closed exactly by its rate after accrual against the two rates; closed loans stay closed |
| UstnLoans.LiquidationRuns | contracts/USTN/USTNFinance.sol:375-462 | a liquidation goes through exactly when the caller may start it and every live loan has a rate |
| UstnLoans.RatelessBlocksForGood | contracts/USTN/USTNFinance.sol:370-459 | a live loan without debt blocks liquidation in every later state, for every caller and price |
| UstnLoans.RatelessFromTheStart | contracts/USTN/USTNFinance.sol:207-255 | supporting: a new loan is such a loan exactly when the prices make nothing of its collateral |
| UstnLoans.LiquidatedKeepsTerms | contracts/USTN/USTNFinance.sol:382-419 | supporting: liquidation touches neither collateral, terms nor principal of a loan |
| UstnLoans.ClosedIsFinal | contracts/USTN/USTNFinance.sol:258-276 | over any run a closed loan keeps its status and all amounts |
| UstnLoans.RepaymentNeverWorsens | contracts/USTN/USTNFinance.sol:295-363 | at fixed prices a partial repayment never lowers the collateral rate in spite of rounding |
| UstnLoans.CollateralAccounted | contracts/USTN/USTNFinance.sol:258-363 | over any run collateral held plus released equals collateral posted |
| UstnSavings.DistributionFair | contracts/USTN/USTNFinance.sol:161-195 | a distribution credits at most the collected interest and falls short by fewer units than there are depositors |
| UstnSavings.DistributionProportional | contracts/USTN/USTNFinance.sol:176-190 | each depositor gets the exact proportion of the interest by points, rounded down |
| UstnSavings.PeriodsTelescope | contracts/USTN/USTNFinance.sol:161-175 | over any run ending in a distribution a depositor was credited exactly the whole periods elapsed |
| UstnSavings.PeriodsAddUp | contracts/USTN/USTNFinance.sol:161-175 | a depositor's time stamp moves by exactly the periods credited |
| UstnSavings.DepositUndone | contracts/USTN/USTNFinance.sol:121-157 | supporting: withdrawing what was just deposited always works and restores every balance and the limit |
| UstnAuctions.RunEvolves | contracts/USTN/USTNAuction.sol:118-286 | over any run lots keep what they sell, prices never fall, and settled lots are frozen |
| UstnAuctions.SettledIsFinal | contracts/USTN/USTNAuction.sol:226-256 | a settled lot takes no bid and is never settled again |
| UstnAuctions.ManagerLedger | contracts/USTN/USTN.sol:135-159 | while the manager is passive its balance changes by recorded bids less settled start values |
| UstnAuctions.RefundsExactlyWhen | contracts/USTN/USTNAuction.sol:206-223 | supporting: in any state a bid is paid back exactly when it is there, its owner does not lead, and the manager holds it |
| UstnAuctions.RefundsAlwaysPaid | contracts/USTN/USTNAuction.sol:206-223 | over runs with an otherwise passive manager the manager always holds it |
| UstnAuctions.SettlesExactlyWhen | contracts/USTN/USTNAuction.sol:226-256 | after any run getAuction succeeds exactly when its own guards hold and the manager and the supply cover the start value; collateral and interestMint are never short |
| UstnAuctions.SettlementNeverShort | contracts/USTN/USTNAuction.sol:226-256 | over runs with a passive manager and a supply that nobody else lowers, its own guards are enough |
| UstnOutcomes.DepositGives | contracts/USTN/USTNFinance.sol:121-144 | supporting: when a deposit works, and every balance, the listing, the credit time and the limit after it; the reserve is the unreserved part of the tokens, rounded down |
| UstnOutcomes.WithdrawalGives | contracts/USTN/USTNFinance.sol:146-157 | supporting: the same for a withdrawal |
| UstnOutcomes.DistributesExactlyWhen | contracts/USTN/USTNFinance.sol:161-195 | a distribution works exactly for the foundation, once some depositor has old points or held a balance for a period |
| UstnOutcomes.DistributionGives | contracts/USTN/USTNFinance.sol:161-195 | a depositor's points grow by balance times the whole periods since it was last credited; its balance grows by exactly its share of all new points in the interest, rounded down |
| UstnOutcomes.BorrowingGives | contracts/USTN/USTNFinance.sol:207-255 | when a loan is given, for how much of the worth of its UNIT, with which first interest, time stamp and terms, and every counter and balance after it |
| UstnOutcomes.NothingLentUnpriced | contracts/USTN/USTNFinance.sol:207-211 | supporting: without a price of USTN neither loan nor top-up changes anything |
| UstnOutcomes.TopUpGives | contracts/USTN/USTNFinance.sol:258-292 | the collateral after a top-up, and the status by collateral value over debt value against 99% of the pledge rate |
| UstnOutcomes.RepaymentGives | contracts/USTN/USTNFinance.sol:295-363 | supporting: debt, interest, limit, interestMint, UNIT and balances after a repayment: interest first, never more than the debt |
| UstnOutcomes.ReleaseIs | contracts/USTN/USTNFinance.sol:304-348 | the collateral that comes back: all with the whole debt, else the repaid share, rounded twice |
| UstnOutcomes.PartialReleaseFair | contracts/USTN/USTNFinance.sol:304-348 | a partial release is at most the repaid share of the collateral, and short of it by a bounded rounding loss only |
| UstnOutcomes.LiquidationGives | contracts/USTN/USTNFinance.sol:375-459 | a liquidation charges a live loan each whole period since its time stamp once, one by one and rounded down, keeps its terms, and classifies it by its value over its debt against both lines |
| UstnOutcomes.RunCharges | contracts/USTN/USTNFinance.sol:382-419 | over a run a live unrepaid loan is charged exactly the whole periods up to the last liquidation, between simple interest and exact compounding |
| UstnOutcomes.LotsOpened | contracts/USTN/USTNAuction.sol:118-142 | a liquidation leaves all lots alone and adds lots without bids that stay open for ten minutes |
| UstnOutcomes.BidGives | contracts/USTN/USTNAuction.sol:159-203 | supporting: when a bid works, who leads at which price after it, and who pays whom |
| UstnOutcomes.RefundGives | contracts/USTN/USTNAuction.sol:206-223 | supporting: a refund pays the whole bid back, and only once |
| UstnOutcomes.SettlementGives | contracts/USTN/USTNAuction.sol:226-256 | supporting: what a settlement moves in bank, auction and token |
| UstnOutcomes.RelistingGives | contracts/USTN/USTNAuction.sol:267-286 | supporting: which lots are reopened, and until when |
| UstnContracts.Ustn.BidCost | contracts/USTN/USTN.sol:135-145 | moves a bid to the manager, exactly when more than the bid is held |
| UstnContracts.Ustn.BidBack | contracts/USTN/USTN.sol:150-159 | moves a bid back from the manager, or changes nothing |
| UstnContracts.Ustn.Burn | contracts/USTN/USTN.sol:256-266 | takes tokens from an account and the supply, or changes nothing |
| UstnContracts.Ustn.ReduceBalance | contracts/USTN/USTN.sol:201-207 | takes a positive amount that is held, or changes nothing |
| UstnContracts.Ustn.AddBalance | contracts/USTN/USTN.sol:190-197 | adds to one balance only |
| UstnContracts.Ustn.AddTotalSupply | contracts/USTN/USTN.sol:182-186 | adds to the supply only |
| UstnContracts.UstnFinance.Deposit | contracts/USTN/USTNFinance.sol:121-137 | in place: the whole state becomes that of the modelled deposit, or stays |
| UstnContracts.UstnFinance.Withdrawal | contracts/USTN/USTNFinance.sol:146-157 | in place: the modelled withdrawal, or nothing |
| UstnContracts.UstnFinance.DistributeDepositInterest | contracts/USTN/USTNFinance.sol:161-195 | both loops together compute the modelled distribution, or nothing |
| UstnContracts.UstnFinance.Loans | contracts/USTN/USTNFinance.sol:215-255 | in place: the modelled borrowing, or nothing |
| UstnContracts.UstnFinance.AddLoans | contracts/USTN/USTNFinance.sol:258-292 | in place: the modelled top-up, or nothing |
| UstnContracts.UstnFinance.LoansBack | contracts/USTN/USTNFinance.sol:295-363 | in place: the modelled repayment, or nothing |
| UstnContracts.UstnFinance.AccrueOne | contracts/USTN/USTNFinance.sol:391-404 | the inner while loop compounds one loan up to now and books the interest |
| UstnContracts.UstnFinance.Liquidation | contracts/USTN/USTNFinance.sol:375-462 | the nested loops accrue and classify every loan once and append the lots in visit order |
| UstnContracts.UstnFinance.AuctionOver | contracts/USTN/USTNFinance.sol:466-477 | settlement back into the bank, or nothing |
| UstnContracts.UstnAuction.AuctionStart | contracts/USTN/USTNAuction.sol:118-142 | appends one fresh lot |
| UstnContracts.UstnAuction.Bid | contracts/USTN/USTNAuction.sol:159-203 | in place: the modelled bid, or nothing |
| UstnContracts.UstnAuction.BidWithdrawal | contracts/USTN/USTNAuction.sol:206-223 | in place: the modelled refund, or nothing |
| UstnContracts.UstnAuction.GetAuction | contracts/USTN/USTNAuction.sol:226-256 | in place across three contracts: the modelled settlement, or nothing |
| UstnContracts.UstnAuction.UpgradeState | contracts/USTN/USTNAuction.sol:267-286 | the loop extends exactly the ended lots without bids |
| GravitySafety.AcceptedPower | contracts/Crosschain/gravity.sol:206-241 | acceptance implies that genuine signers hold more than the threshold |
| GravitySafety.CountsGenuine | contracts/Crosschain/gravity.sol:214-233 | in front of the first invalid signature, what is counted is exactly the power of genuine signers |
| GravitySafety.ValidPowerSums | contracts/Crosschain/gravity.sol:214-233 | that power is the sum over all places, whoever did not sign in between |
| GravitySafety.AcceptsExactlyWhen | contracts/Crosschain/gravity.sol:206-241 | a message is accepted exactly when genuine signers in front of the first invalid signature hold more than the threshold |
| GravitySafety.AllValidAccepted | contracts/Crosschain/gravity.sol:206-241 | with all supplied signatures valid, acceptance is exactly that their signers hold more than the threshold |
| GravitySafety.SucceedsExactlyWhen | contracts/Crosschain/gravity.sol:248-588 | the exact conditions of every call: sizes, nonces, timeouts and a quorum of genuine signers of the current set |
| GravitySafety.StepReports | contracts/Crosschain/gravity.sol:248-609 | supporting: each call that goes through stores its own nonce or set and leaves one event that reports it |
| GravitySafety.TotalPowerSums | contracts/Crosschain/gravity.sol:289-301 | supporting: total power is the sum of all powers |
| GravitySafety.QuorumsIntersect | contracts/Crosschain/gravity.sol:69-71 | two messages accepted under one set share genuine signers with over a third of 2^32 |
| GravitySafety.EveryRunSafe | contracts/Crosschain/gravity.sol:248-662 | from deployment on: the checkpoint is that of the last set, which can vote; each set was approved by its predecessor with a nonce step of 1 to 1000000; batch and call nonces rise; events have no gap |
| GravitySafety.StepSafe | contracts/Crosschain/gravity.sol:248-609 | every transaction keeps trace safety |
| GravitySafety.NoBatchTwice | contracts/Crosschain/gravity.sol:344-441 | an executed batch can never be executed again, whoever signs |
| GravitySafety.NoCallTwice | contracts/Crosschain/gravity.sol:452-553 | an executed logic call can never be executed again |
| GravitySafety.NeverStuck | contracts/Crosschain/gravity.sol:248-338 | valid signatures of the whole current set are always accepted |
| GravitySafety.LogGrows | contracts/Crosschain/gravity.sol:555-609 | emitted events are never lost |
| GravityContract.NoErrorIffAllowed | contracts/Crosschain/gravity.sol:248-553 | supporting: a call goes through exactly when no named check fails |
| GravityContract.HasPower | contracts/Crosschain/gravity.sol:289-301 | the early exit loop decides whether total power passes the threshold |
| GravityContract.CheckValidatorSignatures | contracts/Crosschain/gravity.sol:206-241 | the early exit loop accepts exactly when genuine signers in front of the first invalid signature hold more than the threshold, and names the right error otherwise |
| GravityContract.Gravity.Create | contracts/Crosschain/gravity.sol:611-662 | deploys with event nonce 1, or fails with the first failing check |
| GravityContract.Gravity.UpdateValset | contracts/Crosschain/gravity.sol:248-338 | in place: the modelled step, and the first failing check as error |
| GravityContract.Gravity.SubmitBatch | contracts/Crosschain/gravity.sol:344-441 | in place: the modelled step, and the first failing check as error |
| GravityContract.Gravity.SubmitLogicCall | contracts/Crosschain/gravity.sol:452-553 | in place: the modelled step, and the first failing check as error |
| GravityContract.Gravity.SendToCosmos | contracts/Crosschain/gravity.sol:555-588 | logs the amount really received, or fails if nothing was |
| GravityContract.Gravity.DeployERC20 | contracts/Crosschain/gravity.sol:590-609 | takes the next event nonce |
| AirdropRuns.ScheduleIndependent | contracts/Airdrop/Airdrop.sol:285-351 | with the same proposals, signatures, executions and fundings at the same times, the claim schedule changes neither the amount got for the same months nor claimed and due together |
| AirdropRuns.ClaimedIsDue | contracts/Airdrop/Airdrop.sol:500-525 | after any run a VIP has claimed the amounts of months 1 to the last claimed one exactly |
| AirdropRuns.PaysExactlyWhen | contracts/Airdrop/Airdrop.sol:500-525 | supporting: a due amount is paid exactly when the VIP pool and the balance cover all of it |
| AirdropDues.DuesAccounted | contracts/Airdrop/Airdrop.sol:285-351 | what all VIPs are due and have claimed together is what the months so far promise: each monthly pool as often as the ratios of that month add up to whole pools |
| AirdropDues.AllPaidExactlyWhen | contracts/Airdrop/Airdrop.sol:500-525 | in whatever order VIPs claim, all of them are paid exactly when their dues together are within the pool and the balance |
| AirdropDues.EveryonePaidExactlyWhen | contracts/Airdrop/Airdrop.sol:285-594 | after any run from deployment, everyone can be paid exactly when the months' promises and what was swept are within the pool and booked funding, and with the grants within the UNIT received |
| AirdropDues.WithinOneCovered | contracts/Airdrop/Airdrop.sol:285-576 | where in every month reached the ratios stand for one monthly pool at most, the pool covers all dues until it is swept, whatever was funded or changed |
| AirdropDues.PlainAirdropCoveredUntil | contracts/Airdrop/Airdrop.sol:74-142 | without fundings and changes the pool covers all dues exactly while months times whole ratios is at most twelve |
| AirdropExamples.FullRatioNeverPaid | contracts/Airdrop/Airdrop.sol:442-451 | a concrete airdrop whose single VIP is never paid anything on any run without fundings and changes of ratios |
| AirdropSafety.WorldFreezesPast | contracts/Airdrop/Airdrop.sol:562-576 | fundings and proposals never touch the months already reached |
| AirdropSafety.RatioIsLatestChange | contracts/Airdrop/Airdrop.sol:422-431 | the backward search returns the latest change at or before the month, zero without one |
| AirdropRuns.ComingRatiosStand | contracts/Airdrop/Airdrop.sol:422-431 | after any run, for every month still to come the search finds the ratio in force |
| AirdropSafety.ExecutionDecidesComingMonths | contracts/Airdrop/Airdrop.sol:718-750 | an execution sets every coming month to the last entry for an address and leaves past months |
| AirdropSafety.ExecutesExactlyWhen | contracts/Airdrop/Airdrop.sol:718-750 | a proposal executes exactly when it exists, has three signers, was not executed, and leads to ratios within the cap, repeated addresses included |
| AirdropSafety.ProposesExactlyWhen | contracts/Airdrop/Airdrop.sol:635-665 | for every list: a proposal is accepted exactly when its entries are in range and its running total never falls below the ratio replaced and ends within the cap |
| AirdropSafety.DistinctProposals | contracts/Airdrop/Airdrop.sol:635-665 | without repeated addresses the running total is the sum the proposal leads to |
| AirdropSafety.RunningTotalIs | contracts/Airdrop/Airdrop.sol:646-655 | for every list the running total differs from the sum it leads to by exactly what repeated entries are set against wrongly |
| AirdropSafety.RepeatsMislead | contracts/Airdrop/Airdrop.sol:646-655 | in every state, for any newcomer and ratio: when a list with a repeat is refused though its outcome fits, and another accepted though its outcome exceeds the cap |
| AirdropExamples.DeployedRepeatsMislead | contracts/Airdrop/Airdrop.sol:646-655 | one airdrop as deployed on which both happen |
| AirdropSafety.SignsExactlyWhen | contracts/Airdrop/Airdrop.sol:694-713 | supporting: a signature is taken exactly from an officer who has not signed while fewer than three have, proposal or not |
| AirdropSafety.SignedAhead | contracts/Airdrop/Airdrop.sol:694-713 | supporting: three officers can sign an id before it is proposed |
| AirdropSafety.SignedAheadExecutesAtOnce | contracts/Airdrop/Airdrop.sol:635-750 | such a proposal executes the moment anyone makes it, exactly when its outcome is within the cap |
| AirdropSafety.TimeLockNeverDelays | contracts/Airdrop/Airdrop.sol:707-725 | a third signature makes a proposal executable at once, though its execution time lies ahead |
| AirdropSafety.PoolsBalance | contracts/Airdrop/Airdrop.sol:562-576 | a funding raises the twelve pools by its value less a dust below the remaining months |
| AirdropRuns.RatioSum | contracts/Airdrop/Airdrop.sol:718-750 | after any run the ratios sum to the stored total, within the cap |
| AirdropRuns.ExecutedOnceWithThreeSigners | contracts/Airdrop/Airdrop.sol:694-750 | an executed proposal has exactly three different officers as signers and never executes again |
| AirdropRuns.LedgersBalance | contracts/Airdrop/Airdrop.sol:74-142 | from deployment on: remaining, claimed and swept make up the pool plus booked funding; pools, grants and UNIT balance likewise |
| AirdropRuns.InitialInv | contracts/Airdrop/Airdrop.sol:74-142 | initialization establishes every invariant |
| AirdropSafety.RunKeeps | contracts/Airdrop/Airdrop.sol:500-750 | every run keeps ratios, history, signatures and claims consistent |
| AirdropOutcomes.ClaimGives | contracts/Airdrop/Airdrop.sol:285-351 | a claim pays exactly what the months earned that are over by the clock, at most twelve, and were not claimed before; when it works, and the whole purse after it |
| AirdropOutcomes.NothingClaimedAhead | contracts/Airdrop/Airdrop.sol:290-303 | in no run is a month ever claimed before its five minutes are over |
| AirdropOutcomes.FundingGives | contracts/Airdrop/Airdrop.sol:562-576 | a funding raises each of the twelve months to come by the same even share, rounded down, and no month already begun |
| AirdropOutcomes.SweepGives | contracts/Airdrop/Airdrop.sol:580-594 | supporting: the foundation takes all that is left exactly once thirteen months have passed and the balance covers it |
| AirdropOutcomes.GrantGives | contracts/Airdrop/Airdrop.sol:225-241 | supporting: which grants are paid when |
| AirdropOutcomes.SecondGrantWaits | contracts/Airdrop/Airdrop.sol:225-241 | over no run is the second grant touched before the first stage is over |
| AirdropOutcomes.ProposalGives | contracts/Airdrop/Airdrop.sol:654-664 | supporting: a proposal is kept as made under the next number |
| AirdropOutcomes.SignatureGives | contracts/Airdrop/Airdrop.sol:694-713 | supporting: a signature adds its signer to one id, and just the third sets the execution time |
| AirdropOutcomes.DeploymentGives | contracts/Airdrop/Airdrop.sol:74-142 | after deployment everyone has the last ratio listed for it from the first month on, and each of twelve months a twelfth of the pool |
| AirdropOutcomes.EnrolsExactlyWhen | contracts/Airdrop/Airdrop.sol:82-137 | when deployment with different VIPs works |
| AirdropContract.AirDrop.Initialize | contracts/Airdrop/Airdrop.sol:74-142 | the loops set up the modelled world once, or leave the contract blank |
| AirdropContract.AirDrop.GetActualRatio | contracts/Airdrop/Airdrop.sol:422-431 | the backward loop computes the modelled search |
| AirdropContract.AirDrop.VipClaimable | contracts/Airdrop/Airdrop.sol:285-351 | the loop sums the months not yet claimed, up to the twelfth |
| AirdropContract.AirDrop.VipClaim | contracts/Airdrop/Airdrop.sol:500-525 | in place: the modelled claim, or nothing |
| AirdropContract.AirDrop.FoundationClaim | contracts/Airdrop/Airdrop.sol:481-496 | in place: the grants unlocked by now, or nothing |
| AirdropContract.AirDrop.FoundationClaimVips | contracts/Airdrop/Airdrop.sol:580-594 | in place: the sweep after the last month, or nothing |
| AirdropContract.AirDrop.ReceiveIntermediateFund | contracts/Airdrop/Airdrop.sol:562-576 | the loop raises exactly the coming months, and books only while months remain |
| AirdropContract.AirDrop.Propose | contracts/Airdrop/Airdrop.sol:635-665 | the loop checks the running total; in place: the modelled proposal, or nothing |
| AirdropContract.AirDrop.FmOrBd | contracts/Airdrop/Airdrop.sol:668-682 | managers are found before directors, and nobody else |
| AirdropContract.AirDrop.SignTransaction | contracts/Airdrop/Airdrop.sol:694-713 | in place: the modelled signature, or nothing |
| AirdropContract.AirDrop.ExecuteProposal | contracts/Airdrop/Airdrop.sol:718-750 | the loop rewrites ratios and history; in place: the modelled execution, or nothing |
| TCashResults.BooksBalance | contracts/TCash/TCashLoan.sol:133-145 | over every run OLB + RA = TLD; OLB is all loan debt less settled start values; RA is all borrowers' and auctions' payments; the supply is the sum of balances |
| TCashResults.PayingBackRaisesRating | contracts/TCash/TCashLoan.sol:917-955 | moving any amount from OLB and supply to RA never lowers the rating, for every ratio, also above 100% |
| TCashResults.RepaymentKeepsRating | contracts/TCash/TCashLoan.sol:329-387 | recomputing the system risk factor just after a repayment never gives less than just before |
| TCashResults.SettlementKeepsRating | contracts/TCash/TCashAuction.sol:242-272 | the same for the settlement of an auction |
| TCashResults.RiskFactorsDefined | contracts/TCash/TCashLoan.sol:892-969 | over every run NCL and TNL count cleared and all loans, interest stays within the total, and CRF is defined within 120 to 10000 |
| TCashResults.LoanGranted | contracts/TCash/TCashLoan.sol:310-327 | in every reachable state a loan is granted exactly when minting is open, collateral and prices are positive and credit is left |
| TCashResults.LoanWithinBounds | contracts/TCash/TCashLoan.sol:971-1003 | a granted amount is at least the minimum, and above that within both the credit left and the risk-weighted collateral value |
| TCashResults.PeriodClosesExactlyWhen | contracts/TCash/TCashLoan.sol:654-716 | supporting: an interest period keeps the principal and closes a loan exactly by its ratio or its cycles, opening one lot worth the loan |
| TCashResults.TopUpClassifies | contracts/TCash/TCashLoan.sol:416-457 | a top-up never lowers the ratio and sets the status by the new ratio against both lines |
| TCashResults.RepaymentNeverWorsens | contracts/TCash/TCashLoan.sol:1115-1128 | a partial repayment never lowers the collateral ratio; the clearing one releases all |
| TCashLiquidation.RepaysExactlyWhen | contracts/TCash/TCashLoan.sol:329-387 | after any run, the exact conditions for repaying a loan, whatever its status |
| TCashLiquidation.ClosedLoanRepaidWithin | contracts/TCash/TCashLoan.sol:354-361 | a loan that an interest period closed is repaid only within what its borrower has borrowed besides |
| TCashLiquidation.ClosedOnlyLoanCannotBeRepaid | contracts/TCash/TCashLoan.sol:695-698 | supporting: with nothing else borrowed it cannot be repaid at all |
| TCashExamples.LiquidatedLoanRepaid | contracts/TCash/TCashLoan.sol:329-387 | a concrete run on which a loan under liquidation is repaid |
| TCashLiquidation.AccruesExactlyWhen | contracts/TCash/TCashLoan.sol:654-716 | supporting: the exact conditions of an interest period: where it would close the loan, only if the borrower's totals still contain it |
| TCashLiquidation.OverUntilRevived | contracts/TCash/TCashLoan.sol:416-457 | over any run a closed or cleared loan stays so, and out of further auctions by interest periods, until a top-up or the foundation revives it |
| TCashExamples.LoanAuctionedTwice | contracts/TCash/TCashLoan.sol:416-457 | a concrete run on which a topped-up loan is auctioned a second time |
| TCashAccounts.BorrowedExact | contracts/TCash/TCashLoan.sol:256-387 | after every run a borrower's totalBorrowed is its loans' debt less what periods closed; it is the debt of its live loans shifted by exactly what was repaid on, revived from or put among the others; and TLA is totalBorrowed plus TRA |
| TCashAccounts.OutstandingExact | contracts/TCash/TCashLoan.sol:256-387 | after every run OLB exceeds the sum of all borrowers' totalBorrowed by exactly what periods closed less what settled auctions paid |
| TCashAccounts.ShiftsExactlyWhen | contracts/TCash/TCashLoan.sol:329-457 | which calls move totalBorrowed against the debt of live loans, exactly |
| TCashAccounts.ClosesExactlyWhen | contracts/TCash/TCashLoan.sol:654-716 | after any run, the exact conditions of an interest period: where it would close the loan, only if all that was closed for the borrower before is within what it owes on other loans |
| TCashAccounts.OnlyLoanClosesOnce | contracts/TCash/TCashLoan.sol:695-698 | over any run the only loan of a borrower is closed by interest periods at most once |
| TCashAccounts.UnitExact | contracts/TCash/TCashLoan.sol:133-457 | after every run the UNIT held is exactly the collateral of all loans less what settled auctions handed out and what was booked without arriving |
| TCashAccounts.SolventExactlyWhen | contracts/TCash/TCashLoan.sol:133-186 | it covers live loans and unsettled auctions exactly when bookings without UNIT and all sales ever listed are within the collateral of loans no longer live |
| TCashExamples.UnitFallsShort | contracts/TCash/TCashLoan.sol:147-186 | a concrete run of a booking and two listings after which it does not |
| TCashExamples.RevivedOnlyLoanCannotClose | contracts/TCash/TCashLoan.sol:695-698 | a concrete run after which, in every later state in which the borrower has taken no other loan, every period that finds its overdue loan due reverts |
| TCashExamples.RevivedLoanIsDue | contracts/TCash/TCashLoan.sol:654-716 | supporting: the very next period finds it due |
| TCashResults.RepaymentIgnoresStatus | contracts/TCash/TCashLoan.sol:329-387 | supporting: amounts and effects of a repayment are the same for every status |
| TCashResults.CollateralAccounted | contracts/TCash/TCashLoan.sol:329-457 | over any run collateral held plus released equals collateral posted |
| TCashResults.LocksMatchBids | contracts/TCash/TCash.sol:58-77 | over every run a user's locked TCash is the sum of its recorded bids |
| TCashLocks.BackedExactlyWhen | contracts/TCash/TCash.sol:58-117 | throughout a run nobody has more locked than it holds exactly when every bid, repayment, settlement and burn takes no more than is free, or reverts |
| TCashLocks.TransfersExactlyWhen | contracts/TCash/TCash.sol:85-153 | supporting: a transfer succeeds exactly within what is held beyond the lock |
| TCashExamples.LockedBeyondBalance | contracts/TCash/TCash.sol:58-66 | a concrete run on which one amount is bid twice and its owner cannot transfer any more |
| TCashResults.RefundsAlwaysPaid | contracts/TCash/TCashAuction.sol:222-239 | in every reachable state whoever has a bid and does not lead gets it unlocked |
| TCashResults.LeaderLeads | contracts/TCash/TCashAuction.sol:175-219 | over every run the leader's bid is the price and all others are strictly lower |
| TCashResults.RunEvolves | contracts/TCash/TCashAuction.sol:134-302 | lots keep what they sell, prices never fall, settled lots are frozen |
| TCashResults.SettledIsFinal | contracts/TCash/TCashAuction.sol:242-272 | a settled lot takes no bid and is never settled again |
| TCashResults.SettlesExactlyWhen | contracts/TCash/TCashAuction.sol:242-272 | the exact conditions under which a won auction can be collected |
| TCashInvariants.UnitWithin | contracts/TCash/TCashLoan.sol:1115-1120 | supporting: what a repayment releases never exceeds the collateral, so its subtraction never underflows |
| TCashInvariants.RunKeeps | contracts/TCash/TCashLoan.sol:256-308 | every run keeps counters, books, lots, locks and the token consistent |
| TCashOutcomes.RatingGives | contracts/TCash/TCashLoan.sol:917-962 | the system risk factor is that of the documented table (tcash.md:484-491), by both ratios, and is recomputed after a day |
| TCashOutcomes.LimitGives | contracts/TCash/TCashLoan.sol:809-843 | the credit limit is three or twelve times a third of all TAT by the number of loans, and what is left of it |
| TCashOutcomes.RiskFactorGives | contracts/TCash/TCashLoan.sol:892-969 | the combined risk factor by open loans, use of the limit, cleared loans and the system factor |
| TCashOutcomes.AmountGives | contracts/TCash/TCashLoan.sol:971-1003 | the amount of a loan exactly: the risk-weighted worth of its collateral, within the credit left, at least the minimum |
| TCashOutcomes.NothingWithheld | contracts/TCash/TCashLoan.sol:985-998 | where the borrower has credit for more than it gets, more would exceed the risk-weighted worth of its collateral |
| TCashOutcomes.CreationGives | contracts/TCash/TCashLoan.sol:256-327 | supporting: a loan that is granted: minted to its borrower, owed with its first interest, and counted in all counters and books |
| TCashOutcomes.BookingGives | contracts/TCash/TCashLoan.sol:256-308 | supporting: the same for a loan that the foundation books, without mint and UNIT |
| TCashOutcomes.RepaymentGives | contracts/TCash/TCashLoan.sol:329-387 | a repayment: interest first, the exact share of the collateral back, rounded down, the counters, books and balances |
| TCashOutcomes.TopUpGives | contracts/TCash/TCashLoan.sol:416-457 | collateral and prices after a top-up, and the status by value over debt against both lines |
| TCashOutcomes.PeriodGives | contracts/TCash/TCashLoan.sol:654-716 | an interest period: the daily rate charged once, the status by value over debt and cycles, the lot, counters and books |
| TCashOutcomes.ListingGives | contracts/TCash/TCashLoan.sol:147-186 | supporting: what listing a loan changes |
| TCashOutcomes.StatusGives | contracts/TCash/TCashLoan.sol:779-793 | supporting: what setting a status changes |
| TCashOutcomes.BidGives | contracts/TCash/TCashAuction.sol:175-219 | supporting: when a bid works, who leads at which price after it, and what is locked |
| TCashOutcomes.RefundGives | contracts/TCash/TCashAuction.sol:222-239 | supporting: a refund unlocks the whole bid, and only once |
| TCashOutcomes.SettlementGives | contracts/TCash/TCashAuction.sol:242-272 | supporting: what a settlement moves in books, auction and token |
| TCashOutcomes.RelistingGives | contracts/TCash/TCashAuction.sol:283-302 | supporting: which lots are reopened, and until when |
| TCashOutcomes.DurationGives | contracts/TCash/TCashAuction.sol:121-130 | supporting: when the duration is set |
| TCashOutcomes.TransferGives | contracts/TCash/TCash.sol:144-147 | supporting: a transfer takes from the one what it gives to the other |
| TCashContracts.TCash.BidCost | contracts/TCash/TCash.sol:58-66 | locks a bid that the balance covers, or nothing |
| TCashContracts.TCash.BidBack | contracts/TCash/TCash.sol:69-77 | unlocks what is locked, or nothing |
| TCashContracts.TCash.BurnFrom | contracts/TCash/TCash.sol:110-117 | burns a positive amount held, locked or not, or nothing |
| TCashContracts.TCash.Transfer | contracts/TCash/TCash.sol:144-147 | moves only what is not locked |
| TCashContracts.TCashAuction.Bid | contracts/TCash/TCashAuction.sol:175-219 | in place: the modelled bid, or nothing |
| TCashContracts.TCashAuction.BidWithdrawal | contracts/TCash/TCashAuction.sol:222-239 | in place: the modelled refund, or nothing |
| TCashContracts.TCashAuction.GetAuction | contracts/TCash/TCashAuction.sol:242-272 | in place across three contracts: the modelled settlement, or nothing |
| TCashContracts.TCashAuction.UpgradeState | contracts/TCash/TCashAuction.sol:283-302 | the loop extends exactly the ended lots without bids |
| TCashContracts.TCashAuction.UpdateBidDuration | contracts/TCash/TCashAuction.sol:121-130 | sets a duration of at most thirty days, for the foundation |
| TCashContracts.TCashLoan.Record | contracts/TCash/TCashLoan.sol:256-308 | in place: loan, counters and books of a new loan |
| TCashContracts.TCashLoan.CreateLoan | contracts/TCash/TCashLoan.sol:310-327 | in place: the modelled loan with its mint, or nothing |
| TCashContracts.TCashLoan.CalculateLoanAmount | contracts/TCash/TCashLoan.sol:971-1003 | the modelled amount, or the revert |
| TCashContracts.TCashLoan.GetPersonalCreditAndAvailable | contracts/TCash/TCashLoan.sol:809-843 | the loop sums the TAT record into the modelled limit and what is left of it |
| TCashContracts.TCashLoan.Repay | contracts/TCash/TCashLoan.sol:329-387 | in place: the modelled repayment, or nothing |
| TCashContracts.TCashLoan.CollateralTopUp | contracts/TCash/TCashLoan.sol:416-457 | in place: the modelled top-up with its new status, or nothing |
| TCashContracts.TCashLoan.InterestCalculation | contracts/TCash/TCashLoan.sol:654-716 | in place: one interest period, and the auction when the loan closes, or nothing |
| TCashContracts.TCashLoan.StartLiquidation | contracts/TCash/TCashLoan.sol:147-186 | lists the loan and changes only its prices |
| TCashContracts.TCashLoan.GetSrf | contracts/TCash/TCashLoan.sol:917-962 | recomputes the factor at most once a day |
| TCashContracts.TCashLoan.SetLoanStatus | contracts/TCash/TCashLoan.sol:779-793 | changes the status and nothing else |
| TokenLocker.Locker.ClaimToken | contracts/TokenLocker/TokenLocker.sol:249-294 | takes exactly the last ten matching records in order, or all if fewer, pays their sum, keeps all others as a multiset; fails exactly when not authorized, nothing matches or the UNIT is short |
| TokenLocker.Locker.TakeBatch | contracts/TokenLocker/TokenLocker.sol:269-289 | the backwards swap-and-pop loop leaves exactly the records not taken |
| TokenLocker.Locker.SetLockedRecord | contracts/TokenLocker/TokenLocker.sol:201-246 | appends a positive record within an active plan, or nothing |
| TokenLocker.ClaimGives | contracts/TokenLocker/TokenLocker.sol:269-289 | one claim takes only active records of its method whose time has come, at most ten, all of them where fewer are due, and pays what they amount to |
| TokenLocker.LastOnesTaken | contracts/TokenLocker/TokenLocker.sol:269-289 | the records taken are all that are due from some place on, and the last ten where there are more |
| TokenLocker.NothingPaidAhead | contracts/TokenLocker/TokenLocker.sol:249-294 | over any claims and bookings, every record whose time lies after the last claim is still there |
| TokenLocker.DueAccounted | contracts/TokenLocker/TokenLocker.sol:201-294 | over any claims and bookings what was paid plus what is still due is what was due at first or booked since |
| TokenLocker.ClaimsDrain | contracts/TokenLocker/TokenLocker.sol:201-294 | whatever matures and is booked in between, k claims take at least min(n, 10k) records where n matched at first; and none of those is left unless every claim took ten, if nothing is booked that would have matched then |
| TokenLocker.EnoughClaims | contracts/TokenLocker/TokenLocker.sol:201-294 | where m records in all match by the last claim, and nothing is booked that would have matched at the first claim, ceil(m / 10) claims leave none of those that did |
| TokenLocker.FixedSetDrains | contracts/TokenLocker/TokenLocker.sol:249-294 | for a fixed set of m matching records k claims leave exactly max(0, m - 10k) |
| TokenLocker.ClaimInTurns | contracts/TokenLocker/TokenLocker.sol:201-294 | any claims and bookings made on the object are such a history, which pays exactly the UNIT that leaves it |
| TokenLocker.OneMoreInspected | contracts/TokenLocker/TokenLocker.sol:270-288 | one pass of the loop keeps list and taken a permutation of the original |
| Share.SharesAddUp | contracts/Treasure/Share.sol:107-222 | over a run from an empty table, total, list and pieces agree at every moment exactly when each call splits to someone else or nothing, deletes a holder its index points at, or reverts |
| Share.TidyRunsAreSound | contracts/Treasure/Share.sol:201-222 | whoever deletes only the last of the list never meets a stale index |
| Share.StepKeepsIff | contracts/Treasure/Share.sol:107-222 | a transaction keeps list, total and so rewards right exactly when it is such a call |
| Share.SelfSplitKeepsIff | contracts/Treasure/Share.sol:162-196 | a split to oneself creates exactly the pieces it names, so it is harmless only for zero |
| Share.SelfSplitCreatesPieces | contracts/Treasure/Share.sol:162-196 | a concrete run on which ten pieces become twenty with ten on the books |
| Share.DeleteKeepsIff | contracts/Treasure/Share.sol:201-222 | when a deletion works, and that it keeps list, total and rewards right exactly when the holder's index points at the holder |
| Share.DeleteKeepsIndicesIff | contracts/Treasure/Share.sol:212-217 | with right indices every deletion is harmless, and the indices stay right exactly when the last holder goes |
| Share.StaleIndexLosesHolder | contracts/Treasure/Share.sol:212-217 | a concrete run after which a holder of fifty pieces is off the reward list |
| Share.StaleIndexBlocksDeletion | contracts/Treasure/Share.sol:212-217 | a concrete deletion after which another holder cannot be deleted while the list is so short |
| Share.SplitIsExact | contracts/Treasure/Share.sol:228-246 | every holder gets its hundredths of the total, rounded down; rewards never underflow, sum to the total, and the owner absorbs less than one unit of rounding per holder |
| Share.SetGives | contracts/Treasure/Share.sol:107-152 | when one holder can be set, and every entry, the list and the total after it |
| Share.SetsInTurn | contracts/Treasure/Share.sol:107-152 | setting several holders is setting one after the other, all or none |
| Share.SplitGives | contracts/Treasure/Share.sol:162-196 | supporting: when pieces can be split off to somebody else, and both entries after it |
| Share.DeletionGives | contracts/Treasure/Share.sol:201-222 | supporting: what a deletion forgets and where the last holder goes |
| ShareContract.ProducerShare.SetHolders | contracts/Treasure/Share.sol:107-152 | the loop sets all holders, or none |
| ShareContract.ProducerShare.SplitHolder | contracts/Treasure/Share.sol:162-196 | in place: the modelled split, or nothing |
| ShareContract.ProducerShare.DeleteHolder | contracts/Treasure/Share.sol:201-222 | in place: the modelled deletion, or nothing |
| ShareContract.ProducerShare.CalculateRewards | contracts/Treasure/Share.sol:228-246 | the loop fills both arrays with the modelled split |

## Left out

- Overflow of uint256: additions and multiplications are unbounded, so reverts for numbers beyond 2^256 are not modelled.
- Events, except those the bridge numbers; so are the risk factors that TCash loan events carry.
- Display lists and getters: bidUsers and _bider of both auction houses, getVIPs, getUserLoans and the like; maxBorrowable and lastEvaluationTime of TCash borrowers.
- USTN transfers, mint, mintBack, reduceTotalSupply and the bank's call* helpers: one transaction stands for them all, which sets any balances and any supply.
- Role administration, governance and parameter changes: the answer of each lookup is an input of the call.
- Reentrancy and failing receivers: a transfer of UNIT succeeds when the balance covers it.
- The bridge's token balances and the content of logic calls: success of the transfers and of the call is an input.
- UstnAuctions.RefundsAlwaysPaid: supposes an otherwise passive auction manager (`PassiveRun`), as its USTN balance is an ordinary one that it can spend; UstnAuctions.RefundsExactlyWhen supposes nothing.
- UstnAuctions.SettlementNeverShort: supposes a passive manager (`PassiveRun`) and that nobody else lowers the supply (`SupplyKept`); UstnAuctions.SettlesExactlyWhen supposes neither.
- TCash: parameters are any that can be set; that the liquidation line is at or below the warning line when it is set is not used.
- TCash: both lengths of the TAT record are taken to agree, and the auction contract to be set.
- Airdrop: enum values of the proposal purpose other than the only one.
- TokenLocker: plans beyond what booking a record checks, delPlan, deleteLockedRecord and the locked and available totals, which the code does not keep in step with claims.
- TokenLocker.ClaimsDrain: that none is left supposes that nothing is booked which would have matched at the first claim already (`NoneBookedDue`), as such records go to the end of the list and are taken first; the number taken supposes nothing.
- TokenLocker.EnoughClaims: supposes the same (`NoneBookedDue`).
- Share: one producer at a time, as the mappings of different ids do not meet.
- DAO, Producer, Governance, Oracle, TAT, Bid, Stakeable and the crosschain token list: they would add only easy members, or rest on files that are not part of this model.
