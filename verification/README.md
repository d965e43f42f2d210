# Verified model of the L2X settlement engine

This project models the off-chain settlement engine of an exchange whose operator matches orders,
keeps a ledger per round, commits to each round's balances with a Merkle sum tree, and answers
disputes about them. It proves what the engine promises its clients.

## What is modelled

- **Numbers** (`BigNumbers`). Amounts are exact decimals, hence reals. Only division rounds, half-up at
  40 places.
- **Matching** (`Matching`, `MatchingProofs`, `MatchingRuns`, `MatchingFacts`, `MatchingConditions`, `MatchingOutcomes`). One taker against a
  list of makers, with integer rounding, rescaling and pairing of swaps with makers. An independent
  definition, `FairSwap`, says over exact products what a match should be.
- **Ledger** (`Ledgers` for the operations on values, `MetaLedgers` for the class that performs them in
  place). `LedgerBalances`, `LedgerBooks` and `LedgerSound` build up the invariant `Sound`;
  `LedgerFaults` says exactly when operations that lack a check break it, and `FaultExamples` has an input for each.
  `Refusals` says which calls are accepted and how others are refused, and `WithdrawalLifecycle` follows a withdrawal
  from its request to its end.
- **Exchange** (`Exchanges`, `ExchangeServices`, `OrderEntry`, `Settlement`, `OrderFlow`, `KnownAssets`, `Runs`, `Interleavings`,
  `FeeCancellations`, `RoundChanges`, `Guarantees`). An order with its fee, its trades and their fills, then whole runs
  of any length. `Reachable` ledgers are those that some orderly run produces; `ExampleRun` (with `OrderEffects`) is one,
  in which four clients trade.
- **Solvency tree** (`MerkleTree`, `Solvency`, `History`).
- **On chain** (`Commitments`, `ChainProofs`, `Disputes`, `DisputeFacts`, `HonestOperator`). How the mediator contract
  commits roots, checks balance proofs, and opens and closes disputes; and the proofs, approvals and fills the operator
  assembles.
- **Operator** (`ChainEvents`, `BlockProcessing`, `RoundCommits`, `OperatorRounds`, `DepositCredits`, `Operators`), **mutex**
  (`Mutexes`) and **depth view** (`OrderBooks`).

`dafny verify dfyconfig.toml` verifies the whole project.

Each class method is specified by a function on values, and the properties are proved about those
functions. Identifiers, timestamps, clocks, halts and failures of the outside world are inputs.

## What "orderly" means

Run-level theorems speak about runs whose callers keep to these rules, all of which can be checked
before the call (`Runs.Orderly`, `OrderFlow.OrderlyOrder`):

- a deposit is for a round that its account is not remembered beyond; an order or a withdrawal is for a
  round after which the accounts it touches have nothing but deposits credited early, and are not
  remembered;
- a withdrawal is recorded or approved while unchecked;
- order, fee and operator ids are new, the two assets of an order differ, and the balance covers order
  and fee together when they sell from the same account;
- matching is aligned: no swap that came back empty stands before a positive one;
- the operator's round does not move while an order is added.

The rules on cover, alignment, withdrawal rounds, the operator's round and the cache are sharp: the table has an
if-and-only-if for each, saying when the property survives without the rule.

## Findings

Where the code does less than its surroundings suggest, the model keeps the code:

- Empty swaps are dropped before swaps and makers are paired by position, so a swap can be booked on the
  wrong maker. `MatchingConditions.TradesPairedIff` has the exact condition on the quotes,
  `MatchingFacts.MisalignedTradeOverfills` an order book where it fails, and
  `ExampleRun.MisalignedOrderOverfills` a run that reaches this book and the overfilled approval it ends with.
- Makers are sorted by prices rounded to 40 places, so very large amounts can put a dearer maker first
  (`MatchingConditions.CheapestFirstIff`, `MatchingConditions.DearerMakerGoesFirst`).
- Order and fee are each checked against the same balance (`LedgerFaults.StoredOrderCoveredIff`,
  `FaultExamples.OrderAndFeeOverdraw`).
- The balance cache is patched inside the transaction and not rolled back with it
  (`LedgerFaults.CacheSurvivesInsertIff`, `FaultExamples.ResubmittedOrderSpoilsCache`).
- A fill is checked against the pooled lock of the account, not against its approval
  (`LedgerFaults.AcceptedFillFitsIff`, `FaultExamples.FillAboveItsApproval`).
- A withdrawal is checked against the balance of its own round only
  (`LedgerFaults.BackdatedWithdrawalIff`, `FaultExamples.BackdatedWithdrawalOverdraws`).
- Orders are cancelled without taking the match lock, so taker or maker can be gone before a trade is
  settled, or the maker between its two fills (`Interleavings.TradeSettlesIffBothOpen`,
  `Interleavings.SettlementUnderCancellation`, `ExampleRun.CancelHalvesReachableTrade`).
- A fee approval is open until it is filled, and can be cancelled in between: the order then stays in the book
  without a paid fee (`FeeCancellations.FeePaidIffNotCancelled`, `ExampleRun.CancelledFeeLeavesOrder`). The comment on
  `addOrder` assumes that this cannot happen.
- The operator's round is read when an order is checked and again when it is matched. If it moves in between, makers of
  the new round are matched while every fill carries the taker's, and the first trade is half applied
  (`RoundChanges.TradesSettleIffRoundHolds`, `RoundChanges.MovedRoundHalvesTrade`). Such makers are in the book when the
  operator restarted in round zero and its round catches up.
- A deposit credited to a round before the wallet joined is missing from the roots up to the round it
  joined in (`Solvency.RootIsSolventIff`, `FaultExamples.LatecomerIsNotInRoot`). The contract pads a root with its own
  closing balance, so in such a round no proof of any member verifies and no dispute can be closed
  (`ChainProofs.MembersProveOnChainIff`, `FaultExamples.LatecomerBlocksProofs`, `Guarantees.DisputesCloseIff`).
- Two orders of equal intent convert the maker's remainder at its price, and matching throws when that leaves a fraction
  (`MatchingOutcomes.MatchFailsIff`, `MatchingOutcomes.ThirdIsStuck`): the order then stays in the book without any trade,
  whatever later makers offer (`MatchingOutcomes.RunFailsIff`).
- Approving a withdrawal does not look at its status, so one that was confirmed or canceled can become pending again
  (`WithdrawalLifecycle.StepOnwardsIff`, `FaultExamples.ConfirmedIsReopened`).
- A buy-all approval that closes keeps its unsold remainder locked until the round ends; the invariant
  counts it as outstanding (`Runs.LockedIsOpenOutstandingIff`, `FaultExamples.ClosedApprovalKeepsLock`).
- The script tests/contract/test_dispute.js that rehearses the contract throws at line 558 when a dispute
  opened without fills is closed with one: it looks the fill up under an id that was never stored. The
  contract reads an empty entry there and goes on (src/contracts/Mediator.sol:712-718), and so does the model.
- The operator sets the quarter before doing the quarter's work, so a commit that fails is not retried
  (`RoundCommits.FirstAttemptDecides`), and a restart just before the first block of a round skips the
  round's commit (`RoundCommits.RestartLosesRoundIff`). With one block per round nothing is ever committed,
  and with fewer than four a quarter is skipped.
- After a restart the operator is in round zero until the next quarter begins, and admits clients as of then, which
  changes trees that are already committed (`OperatorRounds.RoundAfterRestartIff`,
  `OperatorRounds.AdmissionKeepsTreeIff`).
- What a deposit's handler throws is logged, and the block is saved all the same: a deposit whose wallet is not registered
  yet, or whose credit fails, is lost for good (`DepositCredits.CreditedIff`, `DepositCredits.CreditsAreFinal`,
  `DepositCredits.EarlyDepositIsLost`). A credit that fails at its commit leaves the balance cache patched
  (`ChainEvents.FailedCommitKeepsCacheIff`).
- A deposit is credited before it is recorded, in two steps, and recorded by transaction alone, so it can be credited
  twice or, with another one in its transaction, not at all (`DepositCredits.CreditedIff`,
  `ChainEvents.CreditedInTurnIff`).
- A dispute event is looked up by the contract's id among the numbers of the operator's own table. Read
  from the first dispute on these agree as long as no handler throws (`ChainEvents.TableFollowsContractIff`); otherwise the
  event is stored again at each reading (`ChainEvents.RedeliveryHarmlessIff`).
- The comment on price rounding in the order book says "down"; the code rounds half-up, and so does the
  model. `createOrder` checks the precision of the order twice and never that of the fee; the model
  checks the order.

## Model

| member | source | states |
|---|---|---|
| `BigNumbers.FortyDecimalsFloor` | src/common/BigNumberUtils.ts:14-22 | flooring a quotient rounded half-up to 40 places gives the floor of the exact quotient for every dividend, if and only if the divisor is below 2·10^40 |
| `BigNumbers.FortyDecimalsCeil` | src/common/BigNumberUtils.ts:86-94 | the ceiling agrees with the exact ceiling for every dividend, if and only if the divisor is at most 2·10^40 |
| `BigNumbers.IntegerDivIsExact` | src/common/BigNumberUtils.ts:71-73 | a rounded quotient that happens to be an integer is the exact quotient, so the fractional-amount test never lets a rounded amount through |
| `MatchingProofs.MatchIffFair` | src/server/exchange/Matching.ts:82-153 | for integer quotes within the supply bound, matching over 40-place decimals returns a non-empty swap if and only if it is the exact rational fair swap: whole, positive, inside both limit prices and both remainders, at the maker's price rounded by less than one unit in the maker's favour, exhausting one side |
| `MatchingFacts.EmptyIffTakerPriceBroken` | src/server/exchange/Matching.ts:136-142 | of the matches that return normally, exactly those are zeroed whose rounded proposal would break the taker's limit price |
| `MatchingOutcomes.MatchFailsIff` | src/server/exchange/Matching.ts:82-153 | which matches throw: two integer quotes within the supply bound match normally unless a buyer meets a buyer, or a seller a seller, and what the maker has left, converted at its own price, is the smaller amount, leaves a fraction, and would not break the taker's price, all over integer products; the error says which side; quotes of opposite intents always match normally |
| `MatchingOutcomes.EmptyIffNoFairSwap` | src/server/exchange/Matching.ts:136-152 | where matching does not throw it returns the fair swap if there is one, and the empty swap exactly when there is none |
| `MatchingOutcomes.NonIntegerIff` | src/server/exchange/Matching.ts:93-95 | matching throws for non-integer amounts exactly when one of the six is not an integer, whatever else is wrong |
| `MatchingOutcomes.RunFailsIff` | src/server/exchange/Matching.ts:162-182 | a run over any makers throws if and only if, after settling with those before it on their fair swaps or on nothing, the taker still wants something and gets stuck with a maker |
| `MatchingOutcomes.CreateTradesFailsIff` | src/server/exchange/Matching.ts:264-303 | creating trades throws if and only if that happens along the sorted makers, in the exchange's units; with makers of the opposite intent it never throws |
| `MatchingOutcomes.DearOfferIsPassedOver` | src/server/exchange/Matching.ts:136-142 | a taker that buys and whose limit price rounding would break gets an empty swap, not an error |
| `MatchingOutcomes.ThirdIsStuck` | src/server/exchange/Matching.ts:145-147 | a buyer meeting a buyer that has a third of a unit to give: matching throws |
| `MatchingFacts.MakerRoom` | src/server/exchange/Matching.ts:106-122 | a fair swap never takes more than the maker has left on the side of its intent, never pays it less than its limit price, and exhausts the maker or the taker |
| `MatchingRuns.RawSwapsAreFair` | src/server/exchange/Matching.ts:162-182 | every fold over any list of makers that returns normally consists of swaps that are fair for the taker's running remainder, and stops as soon as the taker is filled |
| `MatchingRuns.SwapsArePositives` | src/server/exchange/Matching.ts:183-185 | what `createSwaps` returns is the run in wei with its zero swaps dropped, and it fails exactly when the run does |
| `MatchingRuns.RunInWeiIsFair` | src/server/exchange/Matching.ts:264-287 | after rescaling, every swap is a positive multiple of 10^(18-decimals) wei that honours both limit prices in wei and exhausts taker or maker |
| `MatchingFacts.MakersBestFirst` | src/server/exchange/Matching.ts:198-251 | the makers tried are exactly the matchable ones with at least one unit left, in increasing order of the price rounded to 40 places and oldest first at one rounded price |
| `MatchingConditions.CheapestFirstIff` | src/server/exchange/Matching.ts:216-251 | makers are tried in the order of their exact prices if and only if, of any two whose prices round alike, the older one is not dearer |
| `OrderFlow.CheapestMakersFirstIff` | src/server/exchange/Exchange.ts:145-191 | the same for the makers of a stored order, whose priorities are row numbers: the condition is on the open approvals of the book |
| `MatchingConditions.SmallMakersInOrder` | src/server/exchange/Matching.ts:216-251 | any two makers whose sell amounts multiply to at most 10^40 are tried in the order of their exact prices |
| `MatchingConditions.DearerMakerGoesFirst` | src/server/exchange/Matching.ts:216-251 | two quotes within the validated amounts whose exact prices differ and round alike: the dearer, older one goes first |
| `MatchingRuns.SortedDistinct` | src/server/exchange/Matching.ts:198-208 | filtering and sorting never lists an approval twice |
| `MatchingRuns.TradesPairedIffAligned` | src/server/exchange/Matching.ts:289-303 | pairing swaps with makers by position gives every swap its own maker if and only if no zero swap comes before a positive one |
| `MatchingConditions.TradesPairedIff` | src/server/exchange/Matching.ts:183-303 | the same on the quotes alone: every trade names its own maker if and only if no later maker matches once one maker's proposal has broken the taker's price |
| `MatchingFacts.MisalignedTradeOverfills` | src/server/exchange/Matching.ts:294-302 | a concrete order book in which the dropped zero swap shifts the pairing and the resulting trade takes 8 units from a maker that has 7 left |
| `ExampleRun.MisalignedOrderOverfills` | src/server/exchange/Exchange.ts:212-254 | that order book is reached by an orderly run; the order is accepted, both fills of its trade are stored, and an approval that asked for 15 has bought 16 |
| `LedgerBalances.OpeningAfterPost` | src/common/accounting/MetaLedger.ts:254-261 | a change to one account row moves the opening balances of exactly the later rounds of that account, by its net amount |
| `LedgerBalances.ReadBalanceExact` | src/common/accounting/MetaLedger.ts:269-287 | with an exact cache, a read returns the full sum, changes no table, and leaves the cache exact |
| `LedgerBalances.PatchExactIff` | src/common/accounting/MetaLedger.ts:404-418 | patching the cache after a change keeps it exact if and only if the change settles nothing or the account is not cached for a later round |
| `LedgerBalances.PostKeepsNonNegative` | src/common/accounting/MetaLedger.ts:420-449 | a covered change to a row after which the account has at most early deposits keeps its free, locked and opening balances of every round non-negative |
| `LedgerBooks.LockCoversRow` | src/common/accounting/MetaLedger.ts:383-402 | the lock of an account row always covers the outstanding amount of each approval behind it |
| `LedgerBooks.FittingFillAccepted` | src/common/accounting/MetaLedger.ts:541-582 | a fill that is inside its open approval passes every check of `insertFill` |
| `LedgerBooks.FillRepresented` | src/common/accounting/MetaLedger.ts:562-574 | after any attempt to insert a fill, each of the five amounts of every account row is still the sum of the deposits, withdrawals, fills and outstanding approvals it stands for |
| `LedgerBooks.FillKeepsBooks` | src/common/accounting/MetaLedger.ts:504-536 | after a fitting fill no approval is overfilled or filled below its price, its filled amounts are the sums of its fills, and it is open exactly while something of its intent remains |
| `LedgerBooks.CancelRepresented` | src/common/accounting/MetaLedger.ts:466-491 | cancelling releases exactly the outstanding amount, so `locked` still equals the sum over approvals that are not canceled |
| `LedgerSound.RegisterSound` | src/common/accounting/MetaLedger.ts:133-148 | registering keeps the ledger invariant |
| `LedgerSound.DepositSound` | src/common/accounting/MetaLedger.ts:189-214 | crediting a deposit keeps the ledger invariant: rows equal their events, nothing negative or overfilled, at most one pending withdrawal, exact cache |
| `LedgerSound.ReadSound` | src/common/accounting/MetaLedger.ts:269-287 | reading a balance keeps the ledger invariant |
| `LedgerSound.LockSound` | src/common/accounting/MetaLedger.ts:383-402 | locking a covered approval keeps the ledger invariant |
| `LedgerSound.CancelSound` | src/common/accounting/MetaLedger.ts:451-494 | cancelling keeps the ledger invariant, accepted or refused |
| `LedgerSound.FillSound` | src/common/accounting/MetaLedger.ts:541-582 | a fitting, timely fill is accepted and keeps the ledger invariant, including non-negative running balances after every prefix of the fills |
| `LedgerSound.RequestSound` | src/common/accounting/MetaLedger.ts:786-790 | recording an unchecked withdrawal keeps the ledger invariant |
| `LedgerSound.WithdrawSound` | src/common/accounting/MetaLedger.ts:855-903 | taking a validated withdrawal out of its account keeps the ledger invariant, including one pending withdrawal per account |
| `LedgerSound.CancelWithdrawalSound` | src/common/accounting/MetaLedger.ts:804-846 | cancelling a withdrawal keeps the ledger invariant, provided the account is not cached for a round after the withdrawal's |
| `LedgerSound.ConfirmSound` | src/common/accounting/MetaLedger.ts:917-938 | confirming the pending withdrawal keeps the ledger invariant |
| `WithdrawalLifecycle.RequestExact` | src/common/accounting/MetaLedger.ts:786-790 | a request is stored as it came unless its transaction is known |
| `WithdrawalLifecycle.ValidatedIff` | src/common/accounting/MetaLedger.ts:940-972 | a withdrawal is valid if and only if its amount is positive and covered, its round after the first and nothing of the account pending; of several faults amount, balance, round and pending one are reported in that order |
| `WithdrawalLifecycle.WithdrawIff` | src/common/accounting/MetaLedger.ts:855-878 | a withdrawal is accepted if and only if its amount is positive and covered, its round after the first, nothing of the account pending and its transaction new; it is then pending and its amount out of its row, and nothing else changed |
| `WithdrawalLifecycle.ApproveIff` | src/common/accounting/MetaLedger.ts:880-903 | a stored request is approved under the same conditions, becomes the pending row, the same in everything else, and its amount leaves the account |
| `WithdrawalLifecycle.ConfirmExact` | src/common/accounting/MetaLedger.ts:848-938 | a confirmation needs a pending withdrawal of the account; that row becomes confirmed with its transaction, amount and round, none of the account stays pending, and nothing else changes |
| `WithdrawalLifecycle.CancelExact` | src/common/accounting/MetaLedger.ts:804-846 | a cancellation ends the first live withdrawal of the account: of an unchecked request only the status changes, of a pending one the amount also returns to the row it was taken from |
| `WithdrawalLifecycle.NextAfterConfirmed` | src/common/accounting/MetaLedger.ts:917-972 | a covered withdrawal that is refused because another is pending goes through once that one is confirmed |
| `WithdrawalLifecycle.StepOnwardsIff` | src/common/accounting/MetaLedger.ts:804-938 | over every operation, orderly or not, withdrawals keep their rows and only move from unchecked to pending to confirmed, or to canceled, if and only if the operation does not approve one that has ended |
| `FaultExamples.ConfirmedIsReopened` | src/common/accounting/MetaLedger.ts:880-903 | 10 deposited, 4 withdrawn and confirmed: approving that withdrawal again makes it pending and takes another 4 |
| `WithdrawalLifecycle.EndedForGood` | src/common/accounting/MetaLedger.ts:804-938 | in every later orderly run a confirmed or canceled withdrawal stays exactly as it is |
| `WithdrawalLifecycle.NextWithdrawalIff` | src/common/accounting/MetaLedger.ts:855-972 | after a confirmation and any orderly run that takes nothing from the account, its next withdrawal is never refused for a pending one, and goes through exactly when it is positive, covered, after the first round and under a new transaction |
| `LedgerFaults.StoredOrderCoveredIff` | src/common/accounting/MetaLedger.ts:358-366 | order and fee are checked one by one against the same balance: a stored order leaves balances non-negative if and only if the balance covered both together |
| `FaultExamples.OrderAndFeeOverdraw` | src/common/accounting/MetaLedger.ts:358-366 | with 10 deposited, an order for 8 and a fee of 5 are both stored and the balance is overdrawn |
| `LedgerFaults.CacheSurvivesInsertIff` | src/common/accounting/MetaLedger.ts:394-401 | the cache patch is not rolled back: submitting an order leaves the cache exact if and only if the order does not pass validation with an id that is taken or used twice |
| `FaultExamples.ResubmittedOrderSpoilsCache` | src/common/accounting/MetaLedger.ts:394-401 | the same order submitted twice: the second is refused and the remembered balance is wrong from then on |
| `LedgerFaults.AcceptedFillFitsIff` | src/common/accounting/MetaLedger.ts:558-560 | a fill is checked against the pooled lock of its account only: an accepted fill keeps the books balanced if and only if its own approval had room for it at its price |
| `FaultExamples.FillAboveItsApproval` | src/common/accounting/MetaLedger.ts:558-560 | two approvals of 4 behind one lock: a fill of 6 under the first is accepted and overfills it |
| `LedgerFaults.BackdatedWithdrawalIff` | src/common/accounting/MetaLedger.ts:855-972 | validation looks at the withdrawal's own round only: an accepted withdrawal, recorded at once or approved later, keeps balances non-negative if and only if every round from its own on had the amount free |
| `FaultExamples.BackdatedWithdrawalOverdraws` | src/common/accounting/MetaLedger.ts:855-972 | 10 deposited in round 1 and locked in round 2: withdrawing 10 in round 1 is accepted and round 2 is overdrawn |
| `Refusals.FillAcceptedIff` | src/common/accounting/MetaLedger.ts:541-665 | a fill is accepted if and only if its id is new, its approval is open and of the same assets, round, instance and owner, and its account has the sold amount locked; a refused one changes nothing |
| `Refusals.FillRefusedAs` | src/common/accounting/MetaLedger.ts:593-665 | of several faults of a fill the first in the source's order is reported: known id, no approval, assets, round, instance, owner |
| `Refusals.CancelAcceptedIff` | src/common/accounting/MetaLedger.ts:451-494 | an approval is cancelled if and only if it is stored and open; only its status and the lock of its account change, by exactly what it has not sold |
| `Refusals.BackingRefusedAs` | src/common/accounting/MetaLedger.ts:420-449 | of several faults of an approval unknown assets are reported before an unknown owner, and that before a balance that does not cover it |
| `Refusals.LoneApprovalKeepsCache` | src/common/accounting/MetaLedger.ts:368-381 | unlike an order, a lone approval is refused before anything is patched: remembered balances stay exact whatever it says |
| `Refusals.DepositRefusedAs` | src/common/accounting/MetaLedger.ts:189-214 | a deposit is credited if and only if its wallet is registered, its amount positive and its round not negative, each fault under its own error in that order; it raises what was deposited in its row and is booked once |
| `MetaLedgers.MetaLedger.constructor` | src/common/accounting/MetaLedger.ts:119-131 | a fresh ledger holds nothing and has the operator registered from round 0 |
| `MetaLedgers.MetaLedger.Register` | src/common/accounting/MetaLedger.ts:133-148 | adds the wallet once; a repeated registration changes nothing |
| `MetaLedgers.MetaLedger.FindOrCreateAccount` | src/common/accounting/MetaLedger.ts:1069-1097 | returns the row, creating an empty one if there is none, and touches no other row |
| `MetaLedgers.MetaLedger.UpdateCachedBalance` | src/common/accounting/MetaLedger.ts:404-418 | changes the remembered balance only when it is of exactly this round |
| `MetaLedgers.MetaLedger.CreditDeposit` | src/common/accounting/MetaLedger.ts:189-214 | refuses unregistered wallets, amounts that are not positive and negative rounds; otherwise adds the amount to the row and the remembered balance |
| `MetaLedgers.MetaLedger.OpeningBalance` | src/common/accounting/MetaLedger.ts:231-267 | the loop over rows, in any order, gives the round-by-round sum over all earlier rounds; negative rounds are refused |
| `MetaLedgers.MetaLedger.CalculateBalance` | src/common/accounting/MetaLedger.ts:289-318 | the loop over rows, in any order, gives the sum up to and including the round less what the round has locked: with that lock added back it is the opening balance of the next round |
| `MetaLedgers.MetaLedger.Balance` | src/common/accounting/MetaLedger.ts:269-287 | answers from the cache when it holds this round, otherwise computes and remembers |
| `MetaLedgers.MetaLedger.ValidateApprovalBacking` | src/common/accounting/MetaLedger.ts:420-449 | refuses unknown assets, unknown owners and sell amounts above the free balance, in that order |
| `MetaLedgers.MetaLedger.DoInsertApproval` | src/common/accounting/MetaLedger.ts:383-402 | locks, patches the cache, and only then is refused on a duplicate id |
| `MetaLedgers.MetaLedger.InsertApproval` | src/common/accounting/MetaLedger.ts:368-381 | validates, refuses duplicate ids before writing, then locks and stores |
| `MetaLedgers.MetaLedger.ValidateOrder` | src/common/accounting/MetaLedger.ts:358-366 | checks amounts, then the backing of the order, then that of the fee |
| `MetaLedgers.MetaLedger.InsertOrder` | src/common/accounting/MetaLedger.ts:348-356 | stores both approvals or neither; on refusal the tables are restored but not the cache |
| `MetaLedgers.MetaLedger.CancelApproval` | src/common/accounting/MetaLedger.ts:451-494 | refuses unknown and closed approvals, otherwise releases the unsold remainder |
| `MetaLedgers.MetaLedger.UpdateApprovalStatus` | src/common/accounting/MetaLedger.ts:504-536 | adds to the filled amounts and closes the approval exactly when its intent is met; refuses approvals that are not open |
| `MetaLedgers.MetaLedger.ValidateFill` | src/common/accounting/MetaLedger.ts:593-665 | reports the first mismatch between a fill and its approval, in the order of the source |
| `MetaLedgers.MetaLedger.InsertFill` | src/common/accounting/MetaLedger.ts:541-582 | moves the sold amount from the lock, credits the bought amount, updates the approval, stores the fill and patches the cache last; a refusal changes nothing |
| `MetaLedgers.MetaLedger.ValidateWithdrawal` | src/common/accounting/MetaLedger.ts:940-972 | refuses by amount, balance, round and pending withdrawal, in that order |
| `MetaLedgers.MetaLedger.Withdraw` | src/common/accounting/MetaLedger.ts:855-878 | records the withdrawal as pending and takes the amount out of its row |
| `MetaLedgers.MetaLedger.ApproveWithdrawal` | src/common/accounting/MetaLedger.ts:880-903 | turns the stored request into a pending withdrawal and takes the amount out of its row |
| `MetaLedgers.MetaLedger.CancelWithdrawal` | src/common/accounting/MetaLedger.ts:804-846 | cancels the first live withdrawal, putting the amount back only if it was pending |
| `MetaLedgers.MetaLedger.ConfirmWithdrawal` | src/common/accounting/MetaLedger.ts:848-853 | performs the transition of `WithdrawalLifecycle.ConfirmExact` in place: the pending row of the account becomes confirmed, or it throws and changes nothing |
| `ExchangeServices.Exchange.AddFill` | src/server/exchange/Exchange.ts:681-709 | stores the fill for an approval's share under the next fill id |
| `ExchangeServices.Exchange.RegisterTrades` | src/server/exchange/Exchange.ts:711-716 | stores the fills of all trades in order, stopping at the first refusal |
| `ExchangeServices.TradesAreFillPairs` | src/server/exchange/Exchange.ts:711-716 | the flat list of fills is two per trade: walking it is settling trade by trade |
| `ExchangeServices.Exchange.ProcessFeeApproval` | src/server/exchange/Exchange.ts:311-333 | stores the operator's side of the fee and then fills both sides |
| `ExchangeServices.Exchange.CreateTradesForApproval` | src/server/exchange/Exchange.ts:145-191 | matches the order, with its full amount, against the open opposite approvals of the round with their remainders |
| `ExchangeServices.Exchange.ProcessOrderApproval` | src/server/exchange/Exchange.ts:245-254 | matches and settles; a failure leaves the stored fills in place and reports no trades |
| `ExchangeServices.Exchange.CheckApproval` | src/server/exchange/Exchange.ts:352-391 | refuses wrong rounds, unregistered owners, wrong amounts and foreign instances, in that order |
| `ExchangeServices.Exchange.AddOrder` | src/server/exchange/Exchange.ts:212-238 | the whole order: checks, storing, fee, then matching and settlement in whatever round the operator is by then; an orderly order keeps the exchange invariant if the round has not moved |
| `ExchangeServices.Exchange.CreateOrder` | src/server/exchange/Exchange.ts:456-472 | refuses unlisted markets, unregistered owners and amounts finer than the exchange's decimals, in that order, before adding the order |
| `ExchangeServices.Exchange.CancelOrder` | src/server/exchange/Exchange.ts:474-488 | cancels approvals of the current round only |
| `OrderEntry.EntryRefusedIff` | src/server/exchange/Exchange.ts:490-510 | an order is refused for its market if and only if no listed market has it as a bid, buying all of the base with the quote, or as an ask, selling all of the base for it; then for its owner; then for its precision; a refused order leaves the ledger as it was, any other goes on to be added |
| `OrderEntry.PreciseIffWhole` | src/server/exchange/Exchange.ts:531-537 | an amount passes the precision check exactly when it is a whole number of the exchange's units |
| `OrderEntry.AddOrderRefusedAs` | src/server/exchange/Exchange.ts:212-391 | of several faults of an order the format of its fee is reported first, then the fee itself, then its amount, then the order, each by round, owner, amounts and instance, and only then what the ledger says; up to there the ledger is untouched |
| `OrderEntry.AcceptedIff` | src/server/exchange/Exchange.ts:212-472 | from a sound exchange in its current round, an order with its fee, under fresh ids and covered together, is accepted if and only if it is listed, precise, positive and within the supply, of this round and mediator, backed by a registered owner's balance, and the fee is exactly the configured one and backed too |
| `OrderEntry.CancelOrderIff` | src/server/exchange/Exchange.ts:474-488 | an order can be cancelled exactly while it is open and its round is the current one |
| `OrderEntry.OppositeBookMatches` | src/server/exchange/Exchange.ts:145-191 | against makers of the opposite intent, all amounts on the exchange's precision, matching a stored order never throws |
| `Settlement.FillListed` | src/server/exchange/Exchange.ts:681-709 | filling one approval within its remainder and price is accepted, changes only that approval's remainder, and keeps the ledger invariant |
| `Settlement.FairTradeSettles` | src/server/exchange/Matching.ts:320-337 | both fills of a fair swap are accepted, and the taker goes on with exactly what is left |
| `Settlement.TradeConserves` | src/server/exchange/Matching.ts:320-337 | the two fills of a trade between opposed approvals leave bought equal to sold for every asset and round |
| `Settlement.FairRunSettles` | src/server/exchange/Exchange.ts:711-716 | every fill of every trade of a fair run of any length is accepted, no trade is half-applied, and trading conserves every asset |
| `OrderFlow.SortedMakersReady` | src/server/exchange/Exchange.ts:145-191 | the makers offered to a stored order are distinct, open rows of the book with their true remainders, and never the taker itself |
| `OrderFlow.MakersTriedIff` | src/server/exchange/Exchange.ts:145-191 | the makers tried for an order are exactly the open approvals of the round on the other side of its assets, at a price it accepts, with at least one unit left, each seen with its true terms, remainder and age |
| `OrderFlow.FeeIsPaid` | src/server/exchange/Exchange.ts:311-333 | both sides of a proper fee are filled in full, even if the payer is the operator, and the order itself is untouched |
| `OrderFlow.FeeFills` | src/server/exchange/Exchange.ts:311-333 | a paid fee is two fills under the next ids: the client gives the fee for nothing, and the operator takes it |
| `OrderFlow.OrderSettles` | src/server/exchange/Exchange.ts:145-191 | whenever matching a stored order returns normally and its swaps are aligned, all its fills are accepted |
| `OrderFlow.AddOrderSound` | src/server/exchange/Exchange.ts:212-238 | an orderly order, checked and matched in one round, is either refused without touching a table, or pays its fee and settles every trade it reports; either way the exchange invariant holds |
| `Interleavings.TradeSettlesIffBothOpen` | src/server/exchange/Exchange.ts:711-716 | a fair trade settled some time after it was matched is applied in full if and only if both its approvals are still open, and breaks conservation exactly when the taker's is and the maker's is not |
| `Interleavings.SettlementUnderCancellation` | src/server/exchange/Exchange.ts:474-488 | whatever orders are cancelled before the first fill of a fair trade or between its two fills: it is applied in full if and only if the taker was not cancelled before, nor the maker at either time, and conservation is lost exactly when the maker alone was |
| `ExampleRun.CancelHalvesReachableTrade` | src/server/exchange/Exchange.ts:474-488 | in a reachable ledger an orderly order makes one trade that settles undisturbed, is half applied when the maker is cancelled before or between its fills, and does not happen when the taker is |
| `FeeCancellations.FeePaidIffNotCancelled` | src/server/exchange/Exchange.ts:311-333 | whatever approvals are cancelled while a fee is processed: it is paid if and only if its own approval was not cancelled before its fill, nor the operator's side before its own; conservation is lost exactly when only the latter was; an order that was not cancelled stays booked either way |
| `ExampleRun.CancelledFeeLeavesOrder` | src/server/exchange/Exchange.ts:222-226 | from a reachable ledger, an accepted order whose fee approval is cancelled before its fill stays in the book unpaid |
| `RoundChanges.TradesSettleIffRoundHolds` | src/server/exchange/Exchange.ts:145-191 | the trades of a stored order, matched when the operator's round is another one, are applied in full, and conserve, if and only if the rounds agree or there is no trade |
| `RoundChanges.MovedRoundHalvesTrade` | src/server/exchange/Exchange.ts:154-163 | an order of round 0 matched in round 1 makes one trade, of which only the taker's half is stored |
| `Runs.StepSound` | src/server/exchange/Exchange.ts:212-238 | every operation of an orderly run, accepted or refused, keeps the exchange invariant |
| `Runs.ReachableSound` | src/common/accounting/MetaLedger.ts:348-972 | in every reachable ledger rows equal their events, no approval is overfilled, nothing is negative, withdrawals are in order, the cache is exact and trading conserves every asset |
| `Runs.LockedIsOutstanding` | src/common/accounting/MetaLedger.ts:383-582 | in every reachable ledger `locked` is the sum of sell less filledSell over the account's approvals that are not canceled |
| `Runs.LockedIsOpenOutstandingIff` | src/common/accounting/MetaLedger.ts:504-536 | in every reachable ledger `locked` is what the open approvals of the account have outstanding if and only if no closed one kept an unsold remainder |
| `FaultExamples.ClosedApprovalKeepsLock` | src/common/accounting/MetaLedger.ts:504-536 | an approval that buys all it asked for below its limit closes, and its unsold remainder stays locked |
| `Runs.WithdrawnIsEffective` | src/common/accounting/MetaLedger.ts:804-938 | in every reachable ledger `withdrawn` is the sum of pending and confirmed withdrawals, and each account has at most one pending |
| `Runs.BalanceIsFullSum` | src/common/accounting/MetaLedger.ts:269-318 | in every reachable ledger `balance()` returns the full sum less current locks, cached or not, and it is not negative |
| `MerkleTree.ComputeLevels` | src/common/GenericMerkleTree.ts:72-84 | the loop builds the levels of the recursive definition, odd nodes carried up |
| `MerkleTree.ProofIndices` | src/common/GenericMerkleTree.ts:126-139 | the loop yields sibling positions that all exist in the tree |
| `MerkleTree.Build` | src/common/GenericMerkleTree.ts:20-24 | a tree built from entries has their hashes as leaves |
| `MerkleTree.GetLiabilities` | src/common/GenericMerkleTree.ts:26-36 | extracts the path of the first equal leaf, and refuses entries that are not in the tree |
| `MerkleTree.IndicesGivePath` | src/common/GenericMerkleTree.ts:26-36 | looking up the indices is collecting the siblings on the way from the leaf to the root |
| `MerkleTree.ProofsVerify` | src/common/GenericMerkleTree.ts:42-55 | for every list of entries with non-negative sums, of any length, the extracted proof of each entry verifies against the root |
| `MerkleTree.VerifiedIsMember` | src/common/GenericMerkleTree.ts:42-55 | any proof list that verifies against the root proves only an entry of the tree, with exactly that sum, address and round |
| `MerkleTree.ClaimWithinRoot` | src/common/GenericMerkleTree.ts:42-55 | a proof that verifies, of whatever tree, claims no negative balance and no more than the root sums up |
| `MerkleTree.RootSum` | src/common/accounting/SolvencyTree.ts:38-49 | the root carries the sum of all leaves |
| `MerkleTree.HeightIsLeast` | src/common/accounting/SolvencyTree.ts:63-69 | the height is the least one whose bottom level has room for the leaves |
| `MerkleTree.ProofLength` | src/common/GenericMerkleTree.ts:126-139 | a proof has at most one node for each level below the root |
| `Solvency.GetSolvencyTree` | src/common/accounting/MetaLedger.ts:718-737 | the tree of a round is built from the opening balances of the wallets that joined before it, in order of registration |
| `Solvency.CompleteProofVerifies` | src/common/accounting/MetaLedger.ts:739-780 | with non-negative balances every member wallet's proof is found and verifies against the root |
| `Solvency.OnlyTrueBalancesProve` | src/common/accounting/MetaLedger.ts:739-780 | a verified claim about a wallet states its true opening balance |
| `Solvency.OpeningFromEvents` | src/common/accounting/MetaLedger.ts:231-267 | an opening balance is deposits plus purchases less effective withdrawals and sales of earlier rounds |
| `Solvency.OpeningIgnoresOrder` | src/common/accounting/MetaLedger.ts:231-267 | ledgers that accepted the same deposits, fills and effective withdrawals of earlier rounds, in any order, open a round alike |
| `Solvency.RootIsSolventIff` | src/common/accounting/MetaLedger.ts:718-737 | the root sum of a sound, conserving ledger is all deposits less all effective withdrawals before the round if and only if no wallet that joined in the round or later opens it with anything |
| `FaultExamples.LatecomerIsNotInRoot` | src/common/accounting/MetaLedger.ts:718-737 | a wallet that deposited for an earlier round than it joined is owed 10 that the root does not contain |
| `History.StepKeepsPast` | src/common/accounting/MetaLedger.ts:189-903 | no operation stamped with a round or a later one changes a row or a member of the rounds before it |
| `History.TreeIsFrozen` | src/common/accounting/MetaLedger.ts:718-737 | once a round has begun, no run of any length whose operations are stamped with it or later changes its solvency tree |
| `OperatorRounds.AdmissionKeepsTreeIff` | src/server/operator/Operator.ts:131-139 | a client admitted by the operator leaves the trees of the last block's round as they were if and only if it was known before or the operator's round is not behind that block's |
| `Commitments.IsMerkleProofValid` | src/contracts/Mediator.sol:977-1013 | the loop over proof elements, hash and running sum apart, climbs to the padded root or the proof is refused |
| `Commitments.ClimbIsFold` | src/contracts/Mediator.sol:990-1006 | climbing with a hash and a running sum is folding the nodes of the operator's tree, for every order of digests |
| `Commitments.ProofIsOfOneRound` | src/contracts/Mediator.sol:942-945 | even where one root was committed for several rounds, a proof is accepted for the round it names and no other |
| `Commitments.ContractAgrees` | src/contracts/Mediator.sol:929-963 | the contract accepts a proof of non-negative sums if and only if the tree's own check does against the committed hash and sum, and height and width agree |
| `Disputes.Mediator.Commit` | src/contracts/Mediator.sol:535-577 | a root is stored if and only if it is the first of its token in a first quarter after round zero, padded with a closing balance of the contract's own reckoning |
| `ChainProofs.OpeningIsOwed` | src/contracts/Mediator.sol:553-562 | carried from round to round, what the contract opens a round with is all deposits less all withdrawals before it |
| `ChainProofs.MembersProveOnChainIff` | src/contracts/Mediator.sol:929-963 | with every earlier round committed, each member's proof is accepted by the contract if and only if no wallet that joined in the round or later opens it with anything |
| `ChainProofs.AcceptedIsTrue` | src/contracts/Mediator.sol:929-963 | whoever made it, a proof that the contract accepts states a member's true opening balance, and none is accepted unless the tree adds up to the contract's opening balance |
| `FaultExamples.LatecomerBlocksProofs` | src/contracts/Mediator.sol:929-963 | one deposit credited before its wallet joined: not even the operator's own proof of that round verifies on chain |
| `Disputes.Mediator.OpenDispute` | src/contracts/Mediator.sol:586-656 | a dispute opens if and only if none is open, the round is not the first, there is a valid proof for every token or an authorisation of the round before, and the fills are the client's, of that round and in order; a refusal stores nothing |
| `Disputes.Mediator.CountClientFills` | src/contracts/Mediator.sol:711-718 | counts the handed-in fills that equal a stored one, an absent entry being the empty fill |
| `Disputes.Mediator.SumApprovals` | src/contracts/Mediator.sol:1288-1308 | totals every approval once, at its first occurrence |
| `Disputes.Mediator.OpeningBalances` | src/contracts/Mediator.sol:1272-1286 | every token starts from its opening balance plus the client's deposits |
| `Disputes.Mediator.ReplayFill` | src/contracts/Mediator.sol:1310-1331 | one fill is covered if and only if it stays in its approval and leaves no balance or approved total of its assets negative |
| `Disputes.Mediator.ReplayFills` | src/contracts/Mediator.sol:1310-1331 | the replay succeeds if and only if every fill is covered, and ends in the final balances |
| `Disputes.Mediator.CheckSettled` | src/contracts/Mediator.sol:1333-1346 | the final check passes if and only if no balance is negative after withdrawals and each proof states its balance |
| `Disputes.Mediator.CheckDisputeAccounting` | src/contracts/Mediator.sol:1260-1349 | the accounting of a dispute passes if and only if the replay covers every fill and the proofs state what it ends in |
| `Disputes.Mediator.CloseDispute` | src/contracts/Mediator.sol:664-754 | a dispute closes if and only if it is open and in time, every proof is the client's and valid, and every clause of the accounting holds; otherwise it is left as it was. Assets that the contract does not list share the entry of its first one |
| `DisputeFacts.ClosedWithinApproved` | src/contracts/Mediator.sol:1171-1349 | whoever assembled the inputs: once they settle, sales and buy-all purchases stay within the distinct approved totals for every asset, no listed balance was overdrawn on the way, every fill kept its approval's price, and the new openings are exactly openings plus deposits plus fills less withdrawals |
| `DisputeFacts.ClosedIncludesClientFills` | src/contracts/Mediator.sol:711-718 | a dispute of a named client closes only if every fill the client stored when opening it is among those handed in, the same in id, approval, round, assets, amounts and client; for increasing fills of the dispute that is exactly what the count checks |
| `DisputeFacts.OmittedFillKeepsOpen` | src/contracts/Mediator.sol:711-718 | one stored fill that the operator leaves out keeps the dispute open; without it the same inputs settle |
| `DisputeFacts.ClosedIsOfDispute` | src/contracts/Mediator.sol:691-742 | only an open dispute closes; everything handed in is the client's and of the disputed round, each fill under the approval beside it and within its size, and none appears twice |
| `DisputeFacts.OnTimeIff` | src/contracts/Mediator.sol:666-673 | the deadline is the quarter of the dispute or the one after it, across the end of a round too |
| `DisputeFacts.OpenedFromTruth` | src/contracts/Mediator.sol:606-616 | against the operator's committed roots, a dispute opened with proofs starts from the client's true opening balances |
| `DisputeFacts.ClosedOnTruth` | src/contracts/Mediator.sol:664-754 | whatever the operator hands in: against its committed roots a dispute closes only if openings, deposits, fills and withdrawals come to what the ledger itself opens the next round with, for every token |
| `DisputeFacts.OverboughtNeverCloses` | src/contracts/Mediator.sol:1288-1331 | two fills of one buy-all approval that together exceed it can never close a dispute |
| `HonestOperator.FillsForIsKept` | src/server/operator/Operator.ts:550-557 | the fills handed in are exactly the client's fills of the round, in increasing id order |
| `HonestOperator.HonestAccountsSettle` | src/server/operator/Operator.ts:520-607 | from a sound ledger the operator's fills, parallel approvals and new opening balances pass the whole accounting of the contract, whatever part of its fills the client handed in |
| `HonestOperator.HonestOperatorClosesIff` | src/server/operator/Operator.ts:520-607 | with its roots committed, the operator's proofs, approvals and fills close a member's dispute in time if and only if no wallet that joined after the disputed round opens the next one with anything |
| `KnownAssets.FillsOfKnownAssets` | src/common/accounting/MetaLedger.ts:420-449 | in every reachable ledger all fills name assets that the ledger was set up with, so a token list that has them lists every fill |
| `Guarantees.NeverOverfilled` | src/server/exchange/Matching.ts:82-186 | in every reachable ledger each approval's filled amounts are the sums of its fills, within its amounts and at its price or better |
| `Guarantees.TradesSettleInFullIff` | src/server/exchange/Exchange.ts:212-238 | from every reachable ledger an accepted orderly order pays its fee, and every fill of every trade is accepted, and trading conserves, if and only if the operator's round has not moved between check and matching or there is no trade |
| `Guarantees.MembersCanProve` | src/common/accounting/MetaLedger.ts:739-780 | in every reachable ledger, for every round, a member's proof verifies, its balance is not negative, and no other balance of that wallet verifies |
| `Guarantees.RootsAreSolventIff` | src/common/accounting/MetaLedger.ts:718-737 | in every reachable ledger the root of any round after the first is what depositors are owed if and only if no wallet that joined in the round or later opens it with anything |
| `Guarantees.MembersProveOnChain` | src/contracts/Mediator.sol:929-963 | in every reachable ledger whose roots are committed, members' proofs are accepted under that condition, and whatever the contract accepts from anyone is the truth |
| `Guarantees.DisputesCloseIff` | src/server/operator/Operator.ts:520-607 | in every reachable ledger, for any token list with the ledger's assets: the operator passes the accounting of any dispute of a member and closes it in time if and only if no wallet that joined after the disputed round opens the next one with anything |
| `Mutexes.ReleaseSafeIff` | src/common/Mutex.ts:41-52 | unlocking a held mutex keeps mutual exclusion if and only if the caller is the holder |
| `Mutexes.RunSafe` | src/common/Mutex.ts:26-62 | over every interleaving of any number of tasks at most one holds the lock, the word says so, exactly the parked tasks listen, and none listens while the lock is free |
| `Mutexes.WaitsIffAsked` | src/common/Mutex.ts:26-62 | in every run a task waits, parked or woken, if and only if it asked for the lock in an event of the run and has not acquired it since |
| `Mutexes.NoLostWakeup` | src/common/Mutex.ts:26-62 | in every run, when the lock is free exactly the tasks that asked for it and have not acquired it since can take a turn, and whichever does acquires it; when it is held those tasks are parked or can take a turn; nobody is parked while it is free |
| `Mutexes.CriticalSectionsAlternate` | src/common/Mutex.ts:26-52 | in every run acquisitions and releases alternate, each release by the last acquirer |
| `Mutexes.Mutex.CompareExchange` | src/common/Mutex.ts:64-71 | replaces the word only when it has the expected value, and returns the old one |
| `Mutexes.Mutex.LockTurn` | src/common/Mutex.ts:30-38 | one turn of the retry loop: acquired if the word was free, otherwise parked as a listener |
| `Mutexes.UnlockWakesAll` | src/common/Mutex.ts:41-62 | one unlock makes every parked task able to take its next turn |
| `Mutexes.Mutex.Unlock` | src/common/Mutex.ts:41-52 | frees the word and wakes all listeners; throws and changes nothing when the word was free |
| `BlockProcessing.SavedConsecutively` | src/server/operator/Operator.ts:257-312 | over every sequence of calls, restarts and admissions, with any halts and failures, each saved block is one more than the one before |
| `BlockProcessing.CallSavesUpTo` | src/server/operator/Operator.ts:257-312 | one call saves every block up to the first that is halted, unread or unsaved, or up to its last, and stops there |
| `BlockProcessing.QuartersAdvanceByOneIff` | src/server/operator/Operator.ts:314-327 | from block to block 4·round+quarter stays or grows by one, for all blocks, if and only if a round has at least four blocks |
| `BlockProcessing.RoundStart` | src/server/operator/Operator.ts:314-327 | with at least two blocks per round, the first block of a round raises the round by one and brings the quarter from another one to zero; any other block keeps the round and never lowers the quarter |
| `RoundCommits.EveryRoundOnceIff` | src/server/operator/Operator.ts:257-312 | over every sequence of calls, restarts and admissions each round entered was committed exactly once or passed over exactly once, in order, never both: if and only if a round has at least two blocks and the mediator was not created in block zero |
| `RoundCommits.CommitsEveryRoundIff` | src/server/operator/Operator.ts:716-741 | every failure-free run commits exactly the rounds 1, 2, 3, … it reaches, in order, under the same condition |
| `RoundCommits.DecidedForGood` | src/server/operator/Operator.ts:716-741 | over every later run a round that was passed over is never committed, and a committed one stays so |
| `RoundCommits.FirstAttemptDecides` | src/server/operator/Operator.ts:716-736 | whatever follows, a round is ever committed if and only if neither the quarter's work nor the commit failed at the first attempt that read its first block |
| `RoundCommits.RestartLosesRoundIff` | src/server/operator/Operator.ts:356-358 | a restart of the process costs a round its commit if and only if the next block is the first of the round and was not attempted yet |
| `OperatorRounds.RoundIsCurrentIff` | src/server/operator/Operator.ts:716-720 | over every sequence of calls, restarts and admissions the operator's round is that of its last block or of the one being attempted if and only if it is not zero or the last block is of round zero |
| `OperatorRounds.RoundAfterRestartIff` | src/server/operator/Operator.ts:65-70 | after a restart and further blocks without failure, the operator's round is that of its last block if and only if that block is of round zero, past its round's first quarter, or of a later round than the first block after the restart |
| `OperatorRounds.RestartForgetsBalances` | src/server/operator/Operator.ts:65-70 | after a restart every balance is read as the full sum again, however wrong the one remembered before was |
| `Operators.Operator.OnNewQuarter` | src/server/operator/Operator.ts:716-736 | sets round and quarter first, then works, and commits only in quarter zero |
| `Operators.Operator.ProcessSingleBlock` | src/server/operator/Operator.ts:339-363 | delivers the block's events and then starts a new quarter exactly when the quarter differs from the remembered one |
| `Operators.Operator.CalculateCurrentRound` | src/server/operator/Operator.ts:314-318 | the one round whose blocks, counted from creation in steps of the round size, include the given one |
| `Operators.Operator.CalculateCurrentQuarter` | src/server/operator/Operator.ts:320-327 | the one of four quarters whose share of the round size includes the block's position |
| `Operators.Operator.Restart` | src/server/operator/Operator.ts:65-70 | a new process keeps the stored tables and block number, remembers no balance, and starts in round and quarter zero |
| `Operators.Operator.Admit` | src/server/operator/Operator.ts:131-139 | a client joins in the round that the operator believes in |
| `Operators.Operator.ProcessBlocksUpTo` | src/server/operator/Operator.ts:257-312 | walks from the block after the last saved one, stops on halt or failure, and keeps saved blocks consecutive |
| `ChainEvents.EventHandler.HandleDeposit` | src/server/operator/Operator.ts:426-457 | skips recorded transactions; otherwise credits and then records, whatever throws in between being dropped |
| `ChainEvents.EventHandler.HandleInitiateWithdrawal` | src/server/operator/Operator.ts:482-518 | skips known transactions; otherwise stores the request as unchecked |
| `ChainEvents.EventHandler.HandleOpenDispute` | src/server/operator/Operator.ts:625-650 | looks the contract's dispute id up among the table's own numbers; otherwise appends a row |
| `ChainEvents.EventHandler.ProcessEvents` | src/server/operator/Operator.ts:365-424 | delivers the events of a block one after the other, whatever a handler throws |
| `ChainEvents.RedeliveryHarmlessIff` | src/server/operator/Operator.ts:426-650 | reading blocks again, in any order, any part and any number of times, changes nothing if and only if the contract's dispute ids are among the numbers of the stored disputes |
| `ChainEvents.TableFollowsContractIff` | src/server/operator/Operator.ts:625-650 | read from the contract's first dispute on, the table numbers disputes as the contract does if and only if no handler of a dispute throws |
| `ChainEvents.CreditedInTurnIff` | src/server/operator/Operator.ts:438-454 | a deposit of a known wallet is credited in its turn if and only if crediting does not throw, its transaction was not recorded before the reading and recording failed for every earlier deposit of that transaction in it, so of several deposits in one transaction only the first is credited when nothing fails |
| `ChainEvents.FailedCommitKeepsCacheIff` | src/common/accounting/MetaLedger.ts:207-213 | a credit whose transaction fails at its commit leaves the cache exact if and only if the account was not remembered for the deposit's round |
| `ChainEvents.CreditedAreDeposits` | src/server/operator/Operator.ts:447-454 | the ledger has exactly one more deposit for every crediting |
| `ChainEvents.RequestsStored` | src/server/operator/Operator.ts:482-518 | a reading changes no stored withdrawal; each row it adds is an unchecked request with just what a handled event says, and every handled request is in the table |
| `ChainEvents.DisputesStored` | src/server/operator/Operator.ts:625-650 | a reading changes no stored dispute, and each row it adds names the round and client of a handled event |
| `DepositCredits.CreditedIff` | src/server/operator/Operator.ts:339-457 | over all calls, halts, failures, restarts and admissions: a deposit is credited at all if and only if at some reading of its block its wallet was known and nothing threw before the credit was committed, and exactly once if and only if there was one such reading only or recording it did not fail at the first |
| `DepositCredits.CreditsAreFinal` | src/server/operator/Operator.ts:257-312 | once its block is saved, no later call, restart or admission changes how often a deposit was credited |
| `DepositCredits.EarlyDepositIsLost` | src/server/operator/Operator.ts:371-382 | a deposit read before its wallet joins: the block is saved, the client is admitted afterwards, and no later run credits the deposit |
| `OrderBooks.RoundPriceMonotone` | src/server/exchange/OrderBook.ts:127-133 | rounding prices half-up keeps their order, for any number of decimals |
| `OrderBooks.RoundPriceIsNearest` | src/server/exchange/OrderBook.ts:127-133 | a rounded price is the nearest with so many decimals, the higher of two as near |
| `OrderBooks.SideInOrder` | src/server/exchange/OrderBook.ts:70-153 | a side lists all its orders, best price first and the larger amount first at one price |
| `OrderBooks.AggregateNeverThrows` | src/server/exchange/OrderBook.ts:108-119 | no group mixes prices, so aggregation never throws, for any list |
| `OrderBooks.Level2IsDepth` | src/server/exchange/OrderBook.ts:56-68 | the second level has one entry for every rounded price with something remaining, strictly from best to worst, holding all that remains at that price anywhere in the list |
| `OrderBooks.DepthIsUnique` | src/server/exchange/OrderBook.ts:56-68 | there is only one such list: grouping neighbours is grouping globally |
| `OrderBooks.TotalIsKept` | src/server/exchange/OrderBook.ts:70-119 | the levels of a side add up to all that remains on it |
| `OrderBooks.Level1IsBest` | src/server/exchange/OrderBook.ts:44-54 | the first level is the best quoted price with everything at it, or empty if nothing is quoted |

## Left out

- HonestOperator.HonestOperatorClosesIff: takes the contract to have seen exactly the deposits and effective withdrawals that the ledger recorded, and every earlier round to be committed. Requests that are still unchecked, or refused by the contract, are outside it.
- Disputes.Mediator.OpenDispute: has one client, and an authorisation message stands for its verified round.
- Disputes.Mediator.CloseDispute: leaves out the halted flag and the caller's identity.
- Disputes.Mediator.ReplayFills: takes assets to be listed; `Disputes.Mediator.CloseDispute` hands it fills and approvals with unlisted assets replaced by the first one, as the contract's index does.
- DisputeFacts.ClosedWithinApproved: takes approval amounts to be unsigned, as they are in the contract.
- ChainProofs.AcceptedIsTrue: takes the sums of a proof to be unsigned, as they are in the contract.
- DisputeFacts.ClosedIncludesClientFills: takes the client's address not to be the empty one, which the contract's storage holds where no fill was written.
- OrderEntry.AcceptedIff: takes the ids to be new, order and fee to be covered together and the accounts they touch to be timely, as orderly runs keep them; `LedgerFaults.StoredOrderCoveredIff` and `LedgerFaults.CacheSurvivesInsertIff` say what happens otherwise.
- BlockProcessing.CallSavesUpTo: leaves out the failures of a quarter's work, which stop a call at some blocks and not at others; `RoundCommits.FirstAttemptDecides` is about those.
- Overflow of the contract's 256-bit products in the price check: amounts are exact there.
- Instance ids in disputes: the contract compares signatures over them, not the ids.
- DepositCredits.CreditedIff: takes different deposits to come from different transactions; `ChainEvents.CreditedInTurnIff` says what happens when they do not.
- BlockProcessing.SavedConsecutively: the moves of a run are calls, restarts and admissions; orders and withdrawals in between are left out there, as crediting depends on registered wallets alone.
- ExchangeServices.Exchange.AddOrder: the checks of order and fee see one round.
- Signatures, key handling and ABI packing: approvals, fills and withdrawals are taken as already authenticated.
- Hashing: digests are free constructors for leaves and nodes, that is, an injective hash with disjoint images; the order of digests is any total order, and the contract's order of hashes is the tree's order of their strings.
- SQL storage: tables are sequences in insertion order with unique ids, and a transaction is one step; the price pre-filter of the maker query is not modelled, so makers are filtered by `priceMatch` alone.
- The trade table, market data, console and HTTP layers: they only report what the ledger already holds.
- Makers without a price: fee approvals have a zero buy amount and are filled before matching, so the maker list asks for positive amounts instead of dividing by zero.
- The instability of JavaScript's sort in old engines: sorting is stable here.
- Runs.Step: takes each call as one step, so runs do not interleave the transactions of `addOrder` with other calls. What the match lock leaves open is stated apart: cancellations around trades (`Interleavings`) and fees (`FeeCancellations`), and a round that moves (`RoundChanges`). Withdrawals and deposits between the transactions of one order are left out. The mutex is verified on its own.
- Floating point in the quarter computation: block numbers are far below the range where a quotient could round across an integer.
- The schema checks of approvals other than the bounds on amounts.
- Total deposits, balances listings, recovery and resynchronisation of clients: sums and network traffic over data that is modelled.
- Termination of waiting: the mutex gives no fairness, so a task may be overtaken for ever; what is proved is that a free lock is always obtainable.
