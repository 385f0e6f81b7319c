# A verified model of the liquid-staking contracts

The staking hub takes coins, delegates them to validators and mints tokens for them. Token holders ask
to unstake; their tokens are burnt, the requests are collected in a batch, the batch is undelegated,
and once its coins are back and its unstaking period is over it is released, and its users withdraw.
All of this rests on an exchange rate of 18 decimals that is always rounded down, on a record of what
the chain has queued in the current staking epoch, and on coins that are only known as one balance.

The model has five layers.

- *Arithmetic and tools*: `FixedPoint` (the floor arithmetic), `Delegation` (the two allocators, as the
  loops of the source proved against their specification), `PendingEpoch` (the epoch record),
  `Release` (what a pass over matured batches releases), `Claims` (what users are owed).
- *The hub*: `Handlers` gives each message as a function from the stored ledger and the environment to
  the new ledger and the messages sent, or an error. `StakingHub.Hub` is the contract itself, with the
  storage items as fields and the handlers as methods that write them step by step; each method is
  proved to do what its function says. A failing message leaves the ledger as it was.
- *The chain*: `World` adds the token's supply, the hub's balance, its delegations, the queue of staking
  messages carried out at the end of each staking epoch, and what is unbonding. A step is a
  transaction with its messages (all or nothing), a burn of tokens, a block, unbonded coins arriving, a
  donation, a loss while unbonding, a slash, or a move of coins between validators. `Books` counts,
  beside the code, what the conservation laws mention: deposits, payouts, write-offs, rounding allowance.
- *Runs*: `Runs` and `Reachable` prove an invariant of every run, slashing included; `SlashFreeRuns` a
  stronger one for every run without slashing; `CalmRuns` what a bounded block time and an epoch length that
  keeps batches in separate staking epochs add to it; `FifoRuns` that passes add up over runs;
  `BackedReleases` that what batches cost comes back and claims are paid; `StuckRuns` what a total below the
  queued stake does to the rest of a staking epoch; `RateFalls` when the rate falls; `Liveness` when
  transactions go through; `Theorems` says what follows. `LevelWorlds` traces transactions at a rate of 1, for
  the concrete runs in `MeetingBatches`, `FrozenRun`, `DoubledWithdrawal`, `SlashedRun` and `FallenRun`.

- *Across the layers*: `Spreading` follows each validator's part from the allocators through the messages to the
  end of the staking epoch; `ChainAnswers` shows that what the chain and the registry answer is what `World`
  assumes of them; `RequestRuns` follows each user's requests from the first to the payment; `SettingRuns` says
  who may change what over a run; `Rebalancing` carries redelegations out on the chain.

`ValidatorsRegistry` and `RewardDispatcher` model the two contracts around the hub.

Amounts are unbounded, so a transaction that the code aborts because a sum leaves 128 or 64 bits may
go on in the model: every run of the code is a run of the model (an abort changes nothing), and what
holds on all the runs of the model holds on those of the code. The allocators, whose totality is the
point, do model the 128-bit bound. Subtractions below zero and divisions by zero are errors as in the
code.

## What the code does not promise

- *A slashing check is not idempotent.* It is, exactly if the chain was not slashed below what is queued
  to be unstaked (`Slashing.CheckIsIdempotentIff`). Otherwise the lowered total is less than the queued
  stake; the next check panics, and as long as the chain holds anything no stake, unstake, burn or
  processing of requests goes through for the rest of the staking epoch
  (`StuckRuns.StuckForTheEpoch`). A run from instantiation gets there (`SlashedRun.CheckLeavesStuck`).
- *A slashing check can fail without slashing.* In every state of a run without slashing it fails exactly if the
  chain holds something and the total is below the queued stake (`Theorems.SlashFreeTotals`). No calm run gets
  there (`Theorems.CalmTotals`), but where batches meet in a staking epoch a run does: the second batch takes
  more off the total than is left beside the queued stake, and the hub is stuck for the rest of the epoch
  (`FrozenRun.FreezesWithoutSlash`).
- *A withdrawal for listed batches can pay more than is owed.* It finishes what is owed and, once more for each
  time a batch is listed again, that batch's claim. It succeeds exactly if that is positive and set
  aside, and then pays what is owed exactly if no batch with a positive claim is listed twice
  (`Theorems.WithdrawOutcome`). What it pays beyond is missing for the claims of others: in a run from
  instantiation one user is paid 14 of the 14 coins set aside for two, and the other's withdrawal fails
  (`DoubledWithdrawal.OneUserIsPaidTheOthersCoins`). The invariants therefore carry the overpaid amount,
  which is nil on runs that list no batch twice.
- *One batch for each staking epoch* holds exactly for epoch lengths of at least
  `(blocks - 1) * AVERAGE_BLOCK_TIME` seconds. Instantiation checks a little more than that; a later
  change of parameters checks nothing of the kind. For every shorter length a run from instantiation
  undelegates two batches in one staking epoch (`MeetingBatches.BatchesMeet`). Each asks for no more than the
  chain shows, but both together ask a validator with 900 coins for 1000: the chain drops the second
  message, the hub's total no longer agrees with the chain, and the coins of the second batch do not come
  back (`MeetingBatches.SecondBatchIsLost`).
- *The rate can fall.* Without slashing it never does while there are tokens (`Theorems.RateNeverFalls`). It falls
  exactly from above 1, by a step that succeeds and leaves no token when a check gets to the rate (a check, a
  burn, or an unstake of the last tokens), by restaking rewards where there is no token, or by a first
  stake that is worth less than a token at the old rate, or that comes after its own check has set the rate
  to 1 (`RateFalls.RateFallsIff`, which also gives the amounts). But for the stake it falls to 1. In a calm
  run from instantiation rewards raise the rate to 1.5 and the unstake of all 14 tokens sets it to 1
  (`FallenRun.RateFallsToOne`). This is about runs without slashing; after a slash a check lowers the rate with
  tokens and stake left, as it should.
- *Redelegating from several validators at once can unbalance the active ones.* What each excluded validator holds is
  spread over the active totals from before the whole redelegation. With at most one holder the balance is
  kept (`Rebalancing.OneHolderKeepsBalance`); for any two or more amounts there are active validators that
  start within one coin of each other and end further apart (`Rebalancing.BalancedIff`). With two holders of one
  coin each and two active validators with nothing, both coins go to the same one (`Rebalancing.TwoHoldersTip`).
- *A validator can be listed under another address than its own.* Adding a validator stores it as it was given,
  under the address the chain has for it. It is listed with what the chain holds for it exactly if it was
  given in the chain's own form (`ValidatorsRegistry.ListedTrulyIff`).

## Model

| member | source | states |
|---|---|---|
| FixedPoint.RatioIsGreatest | packages/lst_common/src/hub.rs:185-189 | The ratio that becomes the stored rate is the greatest 18-decimal rate at which all tokens are worth no more than the stake |
| FixedPoint.DivisionBounds | contracts/lst_staking_hub/src/math.rs:7-12 | The tokens minted are the most that the payment covers at the rate |
| FixedPoint.MintThenRedeem | contracts/lst_staking_hub/src/math.rs:7-18 | Tokens minted for a payment are, at every positive rate, never worth more than the payment at that rate, and fall short by less than one token's worth and one coin |
| FixedPoint.MultiplicationOfSum | contracts/lst_staking_hub/src/math.rs:14-18 | Redeeming two amounts separately never yields more than redeeming them together, and at most one coin less |
| FixedPoint.ScaleSum | contracts/lst_staking_hub/src/math.rs:14-18 | The floors of a batch's entries add up to at most the floor of the batch, and fall short by at most one coin per entry beyond the first |
| Delegation.CalculateDelegations | packages/lst_common/src/delegation.rs:8-54 | The loop over validators computes the allocation `Delegations`; its fall-through error cannot be reached |
| Delegation.DelegateToTargets | packages/lst_common/src/delegation.rs:29-53 | Walking the validators in list order hands each what it lacks to its target until the amount is used up, which always happens before the list ends |
| Delegation.CalculateUndelegations | packages/lst_common/src/delegation.rs:56-116 | The nested loops compute `Undelegations`: empty set, too large and zero amounts are the three errors, and the outer loop ends in its first pass |
| Delegation.UndelegateToTargets | packages/lst_common/src/delegation.rs:84-113 | One pass takes the whole amount, from each validator at most what it holds above its target |
| Delegation.TargetsSplitEvenly | packages/lst_common/src/delegation.rs:118-146 | Targets sum to the total and differ by at most one coin, which the earlier validators have |
| Delegation.DelegationsTotalAndExact | packages/lst_common/src/delegation.rs:8-54 | Delegating succeeds exactly for a non-empty list whose new total fits 128 bits; the parts sum to the amount, lift no validator above max(current, target), reach a validator only once those listed before it are at their targets, and hit the targets if none was above its own |
| Delegation.UndelegationsTotalAndExact | packages/lst_common/src/delegation.rs:56-116 | Undelegating succeeds exactly for a non-empty list and a positive amount within a 128-bit total; the parts sum to the amount, take from none more than it has or below min(current, target), take from a validator only once those listed before it are at their targets, and hit the targets if none was below its own |
| Delegation.DelegationsKeepBalance | packages/lst_common/src/delegation.rs:29-52 | After delegating, no two validators are further apart than the widest pair was before, or one coin |
| Delegation.UndelegationsKeepBalance | packages/lst_common/src/delegation.rs:84-113 | After undelegating, no two validators are further apart than the widest pair was before, or one coin |
| PendingEpoch.PendingRefinesLog | contracts/lst_staking_hub/src/state.rs:146-190 | Over any log of updates in block order, with any epochs skipped, what is read at a height is the sum of what was recorded in that height's own staking epoch |
| PendingEpoch.UpdateAddsToReading | contracts/lst_staking_hub/src/state.rs:165-190 | An update adds to the reading of its own epoch and leaves a record that starts the chain epoch the height is in: start <= height < start + length |
| PendingEpoch.RolledStart | contracts/lst_staking_hub/src/state.rs:182-186 | Rolling over any number of skipped epochs lands on the start of the epoch the height is in, congruent to the original start |
| PendingEpoch.EpochIsQuotient | packages/lst_common/src/babylon.rs:62-90 | Counting epochs one by one from the origin gives the quotient of the blocks passed and the epoch length |
| PendingEpoch.QueryIsEmptyUpdate | contracts/lst_staking_hub/src/query.rs:39-52 | The read-side twin returns what an update by nothing would store, and agrees with the getter |
| Release.PassReleasesLongestPrefix | contracts/lst_staking_hub/src/unstake.rs:373-412 | A pass releases exactly the longest first-in-first-out run of matured batches the balance covers, and leaves what they do not cost |
| Release.SplitPass | contracts/lst_staking_hub/src/unstake.rs:334-412 | Two passes at growing times with coins arriving between them end where one late pass ends; a repeated pass at the same time and balance releases nothing |
| Release.ManyPassesAreOne | contracts/lst_staking_hub/src/unstake.rs:334-412 | The same for any number of passes |
| Claims.FinishedIsOwedAndRepeated | contracts/lst_staking_hub/src/state.rs:66-109 | For any list of ids, what the code finishes is what the user is owed plus the claims of repeated ids, and the entries it clears are exactly the released ones asked for |
| Claims.PayoutIsOwedIff | contracts/lst_staking_hub/src/state.rs:66-83 | The amount computed for a list of ids is what is owed exactly if no id with a positive claim is listed twice, and is more otherwise |
| Claims.ListedTwice | contracts/lst_staking_hub/src/state.rs:72-80 | An id listed twice is owed once, and the amount computed for it is twice its claim |
| Claims.AscendingLists | contracts/lst_staking_hub/src/state.rs:50-57 | Walking the user's entries in storage order lists each batch once, in ascending order |
| Claims.WithoutClaims | contracts/lst_staking_hub/src/state.rs:112-122 | Clearing a user's finished entries closes exactly the claims it was owed for, and nobody else's |
| Claims.ReleaseOpensClaims | contracts/lst_staking_hub/src/unstake.rs:358-364 | Releasing a batch opens claims worth at most its cost, and less by at most one coin for each entry beyond the first |
| Claims.RecordedTotals | contracts/lst_staking_hub/src/unstake.rs:173-201 | Recording a request raises its batch's total by exactly the request, and no other batch's |
| RequestRuns.RecordedEntry | contracts/lst_staking_hub/src/unstake.rs:188-198 | A request raises the user's own entry for the batch by exactly the request, and every other entry stays |
| RequestRuns.EntryOverStep | contracts/lst_staking_hub/src/unstake.rs:173-201 | Over any step, a user's entry for a batch grows by what the user asks for it, goes when the user is paid for it, and is touched by nothing else |
| RequestRuns.EntryIsWhatWasAsked | contracts/lst_staking_hub/src/unstake.rs:173-201 | On every run from instantiation, a user has an entry for a batch exactly if the user asked for it and was not paid yet, and it is the sum of all the user's successful requests to it |
| RequestRuns.PaidOnce | contracts/lst_staking_hub/src/state.rs:112-122 | On every run no user is paid by two withdrawals for one batch |
| RequestRuns.WhatWasAskedIsPaid | contracts/lst_staking_hub/src/unstake.rs:438-503 | On a calm run without loss that lists no batch twice, once a batch has matured and only later ones are out, a user who asked for it and was not paid yet can withdraw what all the requests are worth at the rate it left at, rounded down once |
| Slashing.CheckTakesMinimum | contracts/lst_staking_hub/src/contract.rs:268-312 | Past its early returns a check sets the total to the lesser of itself and what is listed and queued; it fails exactly if one of its subtractions would go below zero |
| HubTypes.SumOfDenomIsSum | contracts/lst_staking_hub/src/contract.rs:278-286 | What is listed is the sum over all positions, equal coins counted each |
| HubTypes.SumOfDenomAdds | contracts/lst_staking_hub/src/contract.rs:278-286 | Nothing for no coins, a coin's amount if it is of the denomination, and the sum for two lists together |
| ChainAnswers.ListingAddsUp | contracts/lst_staking_hub/src/contract.rs:278-286 | Over any listing of what the chain holds, one coin for each validator in any order, the loop adds up all that it holds |
| ChainAnswers.CheckAgainstChain | contracts/lst_staking_hub/src/contract.rs:268-312 | Over any such listing, each outcome of a check in terms of the chain: kept, failed, or set to the lesser of the total and delegations plus queued stake less queued unstaking |
| ChainAnswers.AnswersAreSeen | contracts/lst_validators_registry/src/contract.rs:269-297 | Any such listing, with the registry's answer over it, meets what the runs assume of a transaction's answers |
| Slashing.CheckNeedsToken | contracts/lst_staking_hub/src/contract.rs:254-266 | Past its early returns a check also needs the token to be named |
| Slashing.CheckIsIdempotentIff | contracts/lst_staking_hub/src/contract.rs:241-252 | A second check in the same environment gives what the first gave exactly if the chain was not slashed below the queued unstaking; otherwise it panics |
| Slashing.CheckPanicsTheSecondTime | contracts/lst_staking_hub/src/contract.rs:284-298 | A concrete ledger, reached by the run of `SlashedRun.CheckLeavesStuck`, on which the first check succeeds and the second panics |
| StuckRuns.BecomesStuck | contracts/lst_staking_hub/src/contract.rs:284-298 | A check that succeeds on a chain slashed below the queued unstaking leaves the total below the queued stake |
| StuckRuns.StuckFails | contracts/lst_staking_hub/src/contract.rs:284-289 | With the total below the queued stake, every stake, restake, unstake, check and non-empty processing of undelegations fails |
| StuckRuns.StuckBurnFails | contracts/lst_token/src/contract.rs:140-177 | So does every burn, through the check it asks for |
| StuckRuns.StuckForTheEpoch | contracts/lst_staking_hub/src/contract.rs:284-298 | Whatever is tried within the staking epoch, by users or the chain, this stays so and the total stays, as long as the chain holds anything |
| FrozenRun.FreezesWithoutSlash | contracts/lst_staking_hub/src/contract.rs:284-289 | For every epoch length that does not keep batches apart, a run of transactions and blocks from instantiation, without slashing or loss, leaves the hub stuck: two batches in one staking epoch take the total below the queued stake |
| SlashedRun.CheckLeavesStuck | contracts/lst_staking_hub/src/contract.rs:284-298 | A run from instantiation (stake, undelegated batch, stake, slash) after which one check succeeds and leaves the hub so |
| Slashing.RefreshedRate | packages/lst_common/src/hub.rs:179-191 | A refresh makes the tokens at the new rate worth no more than the stake, and never lands below a rate the stake already covered, apart from the reset to 1 |
| Slashing.CheckKeepsRateBound | contracts/lst_staking_hub/src/contract.rs:268-312 | In any environment a check never raises the total and keeps the tokens covered by the stake |
| StakingHub.Hub.Instantiate | contracts/lst_staking_hub/src/contract.rs:47-128 | Refuses periods out of order, above their maxima, or an epoch length below one staking epoch at the average block time; otherwise an empty ledger at rate 1, with none of the contracts around the hub named |
| SettingRuns.InstantiatesIff | contracts/lst_staking_hub/src/contract.rs:47-128 | A hub can be instantiated exactly with parameters in order (periods within their maxima, epoch length below unstaking period) whose epoch length is at least a staking epoch at the average block time |
| StakingHub.Hub.UpdatePendingDelegationAmount | contracts/lst_staking_hub/src/state.rs:165-190 | Writes the record `UpdatePending` gives, and nothing else; unchanged on error |
| StakingHub.Hub.QueryPendingDelegation | contracts/lst_staking_hub/src/query.rs:39-52 | The local roll-over returns what an update by nothing would store |
| StakingHub.Hub.QueryActualState | contracts/lst_staking_hub/src/contract.rs:268-312 | The loop over delegations and the adjustment give `CheckedState` of the state passed in, reading the stored batch |
| StakingHub.Hub.CheckSlashing | contracts/lst_staking_hub/src/contract.rs:241-252 | Stores the checked state, and nothing else; unchanged on error |
| StakingHub.Hub.ExecuteStake | contracts/lst_staking_hub/src/stake.rs:26-163 | Ledger and messages after a stake: mint at the checked rate, total, rate and epoch record raised, one delegation for each positive part |
| Spreading.DelegateMessagesExact | contracts/lst_staking_hub/src/stake.rs:108-124 | What the messages of a stake stake with each listed validator is exactly its own part, and nothing goes to any other |
| Spreading.StakeReachesEach | contracts/lst_staking_hub/src/stake.rs:26-163 | At the end of the staking epoch, whatever else is queued, each validator has what it would have had without the stake and its own part of the payment on top |
| StakingHub.Hub.UpdateUnstakeBatchWaitList | contracts/lst_staking_hub/src/unstake.rs:173-201 | Adds the request to the user's entry of the batch and to the batch in memory |
| StakingHub.Hub.PickValidatorForUndelegation | contracts/lst_staking_hub/src/unstake.rs:253-294 | One undelegation for each positive part of the allocation, in list order |
| Spreading.UndelegateMessagesExact | contracts/lst_staking_hub/src/unstake.rs:275-291 | What the messages of a batch take from each listed validator is exactly its own part, and nothing from any other |
| Spreading.BatchTakesFromEach | contracts/lst_staking_hub/src/unstake.rs:206-294 | In a calm world, at the end of the staking epoch each validator has what it would have had without the batch, less its own part of what the batch's release will cost |
| StakingHub.Hub.ProcessUndelegationsForBatch | contracts/lst_staking_hub/src/unstake.rs:206-248 | The batch is recorded at the current rate in both rate fields, its worth leaves the total and enters the epoch record, and the next batch starts empty |
| StakingHub.Hub.CheckForUnstakeBatchEpochCompletion | contracts/lst_staking_hub/src/unstake.rs:108-144 | The slashing check reads the stored batch, the undelegation the one in memory, and only after strictly more than the epoch length |
| StakingHub.Hub.ExecuteUnstake | contracts/lst_staking_hub/src/unstake.rs:33-104 | Ledger and messages after an unstake in either burn flow, with its balance and allowance errors |
| StakingHub.Hub.ExecuteProcessUndelegations | contracts/lst_staking_hub/src/unstake.rs:149-169 | Nothing for an empty batch, the epoch check otherwise |
| StakingHub.Hub.GetUnprocessedHistories | contracts/lst_staking_hub/src/unstake.rs:373-412 | The unbounded loop ends, and collects exactly the batches of `ReleasePass` with what they leave |
| StakingHub.Hub.ProcessWithdrawRate | contracts/lst_staking_hub/src/unstake.rs:334-368 | Marks exactly those batches released and moves the last processed id to them |
| StakingHub.Hub.ExecuteProcessWithdrawRequests | contracts/lst_staking_hub/src/unstake.rs:298-328 | A release that sets aside what the released batches cost |
| Theorems.RequestsAreProcessed | contracts/lst_staking_hub/src/unstake.rs:298-328 | In every sound world a processing of withdraw requests fails exactly if the unstaking period cannot have passed, and otherwise leaves exactly what the pass of a withdrawal would |
| StakingHub.Hub.ProcessFinishedAmount | contracts/lst_staking_hub/src/state.rs:86-109 | The loop computes the finished amount and the batches to clear |
| StakingHub.Hub.RemoveUnstakeWaitList | contracts/lst_staking_hub/src/state.rs:112-122 | Removes exactly the user's entries of the listed batches |
| StakingHub.Hub.ExecuteWithdrawUnstaked | contracts/lst_staking_hub/src/unstake.rs:438-503 | Ledger and payment after a withdrawal, with the error of nothing to withdraw |
| StakingHub.Hub.ExecuteUpdateParams | contracts/lst_staking_hub/src/config.rs:89-146 | Which changes of the periods are accepted, and what they set |
| SettingRuns.AcceptedIff | contracts/lst_staking_hub/src/config.rs:89-146 | A change of parameters in order is accepted exactly if it leaves them in order, and then sets what it names and nothing else |
| SettingRuns.ReachableInOrder | contracts/lst_staking_hub/src/config.rs:89-146 | In every state of every run the parameters are in order |
| StakingHub.Hub.ExecuteUpdateConfig | contracts/lst_staking_hub/src/config.rs:16-87 | From any configuration, the contracts around the hub named or not: only the owner changes it, and a token once named is not replaced by another; naming a dispatcher also redirects the rewards to it |
| SettingRuns.ConfigAcceptedIff | contracts/lst_staking_hub/src/config.rs:16-87 | A change of the configuration fails exactly if it names another token than the one named, and otherwise sets what it names and nothing else |
| SettingRuns.RunKeepsSettings | contracts/lst_staking_hub/src/contract.rs:131-194 | Over any run a named token stays; and as long as the owner does nothing, parameters and configuration stay, and a paused hub keeps everything it stores |
| SettingRuns.OnlyTheNamedMay | contracts/lst_staking_hub/src/contract.rs:131-194 | Only the dispatcher restakes rewards, only the token passes an unstake on, only the registry redelegates, and only the owner changes settings |
| StakingHub.Hub.ExecuteUpdateGlobalIndex | contracts/lst_staking_hub/src/contract.rs:378-427 | One withdrawal of rewards for each listed delegation, then their dispatch; only the time of the last index change is written; an error while no dispatcher is named |
| SettingRuns.RewardsOnceEach | contracts/lst_staking_hub/src/contract.rs:378-427 | Each delegation's reward is withdrawn exactly once, and the dispatch comes last |
| StakingHub.Hub.Execute | contracts/lst_staking_hub/src/contract.rs:131-194 | Every message either does what its function says, or fails and leaves every stored item as it was |
| World.CoveredTotal | packages/lst_common/src/babylon.rs:62-90 | If every validator has what the queue takes from it, together they have all the queue takes |
| World.DrainBank | packages/lst_common/src/babylon.rs:62-90 | The end of an epoch pays every queued delegation out of a bank that holds enough |
| World.DrainCovered | packages/lst_common/src/babylon.rs:62-90 | The end of an epoch carries out every message of a covered queue: delegations grow by what was queued to be staked less what was queued to be unstaked, which starts unbonding |
| Spreading.DrainExact | packages/lst_common/src/babylon.rs:62-90 | The end of an epoch changes each validator's delegation by exactly what a covered queue stakes with it and takes from it |
| World.UndelegateMessagesCovered | contracts/lst_staking_hub/src/unstake.rs:275-291 | A batch's undelegations take from each validator no more than the chain has for it |
| Runs.BlockKeepsTracks | contracts/lst_staking_hub/src/state.rs:146-160 | Across every block, epoch boundaries included, the lazily reset record reads as exactly what is queued on the chain |
| Runs.BatchKeepsRateBound | contracts/lst_staking_hub/src/unstake.rs:213-226 | After a batch leaves at the rounded-down rate, the remaining stake still covers the remaining tokens |
| Runs.StakeTransaction | contracts/lst_staking_hub/src/stake.rs:70-163 | A stake that succeeds leaves the payment in the bank and queued in full, the minted tokens in the supply, the total raised by the payment and the rate refreshed |
| Runs.BatchProcessedEffect | contracts/lst_staking_hub/src/unstake.rs:206-248 | A batch that leaves takes exactly its positive worth off the total, into the epoch record and into its undelegations together, and is recorded at one rate |
| Runs.StakeKeepsSound | contracts/lst_staking_hub/src/stake.rs:26-163 | A stake or restake keeps the invariant of all runs |
| Reachable.UnstakeKeepsSound | contracts/lst_staking_hub/src/unstake.rs:33-104 | So does an unstake with its undelegation, its burn and the burn's own slashing check |
| Reachable.WithdrawKeepsSound | contracts/lst_staking_hub/src/unstake.rs:438-503 | So does a withdrawal, whatever ids it lists |
| Reachable.WithdrawTransaction | contracts/lst_staking_hub/src/unstake.rs:438-503 | A withdrawal that succeeds is a release followed by a payout of what the user has on released batches, taken from the coins set aside and from the bank, never more than either holds |
| Reachable.ReleaseEffect | contracts/lst_staking_hub/src/unstake.rs:302-318 | In every sound world the subtractions at the head of both withdraw paths succeed, and a release sets aside exactly what it costs |
| Reachable.StepKeepsSound | contracts/lst_staking_hub/src/contract.rs:131-194 | Every step, slashing included, keeps: batch structure, solvency, bank backing, the epoch record in step with the queue, conservation with write-offs, and the rate bound |
| Reachable.ReachableIsSound | contracts/lst_staking_hub/src/contract.rs:47-194 | All of that in every state of every run from instantiation |
| SlashFreeRuns.CheckLowersNothing | contracts/lst_staking_hub/src/contract.rs:268-312 | Where the hub counts no more than the chain holds and has queued, a check that succeeds leaves the total as it is and does not lower the rate |
| SlashFreeRuns.CheckFailsIff | contracts/lst_staking_hub/src/contract.rs:284-298 | In every slash-free world a check fails exactly if the chain holds something and the total is below the queued stake |
| SlashFreeRuns.MintedIsTheMost | contracts/lst_staking_hub/src/stake.rs:70-82 | A stake mints the most tokens its payment covers at the rate, and restaked rewards mint none |
| SlashFreeRuns.StakeKeepsRate | contracts/lst_staking_hub/src/stake.rs:70-89 | Although minting divides by a rounded-down rate, the new tokens are covered by the payment |
| SlashFreeRuns.BatchKeepsRate | contracts/lst_staking_hub/src/unstake.rs:213-222 | The checked subtraction of a batch's worth from the total never fails |
| SlashFreeRuns.DrainKeepsReach | packages/lst_common/src/babylon.rs:62-90 | The end of an epoch stakes all that is queued to be staked and takes at most what is queued to be unstaked, dropped messages included |
| SlashFreeRuns.StepKeepsSlashFree | contracts/lst_staking_hub/src/contract.rs:131-194 | Every step but a slash, at any pace and with any parameters, keeps the total within what the chain holds and has queued, the rate at least 1, covered and, while there are tokens, no lower than before |
| CalmRuns.BatchesInSeparateEpochs | contracts/lst_staking_hub/src/unstake.rs:125-135 | When the next batch is due, the last one's staking epoch is over and nothing of it is queued any more |
| CalmRuns.CheckSucceeds | contracts/lst_staking_hub/src/contract.rs:268-312 | In a calm world none of the check's subtractions goes below zero |
| CalmRuns.StepKeepsCalm | contracts/lst_staking_hub/src/contract.rs:131-194 | Every step of a calm run keeps the total equal to delegations plus queued stake less queued unstaking, with every validator holding what is queued to be taken from it |
| MeetingBatches.ChangeIsNotRechecked | contracts/lst_staking_hub/src/config.rs:98-128 | Every epoch length that instantiation refuses as too short can be set afterwards |
| MeetingBatches.BatchesMeet | contracts/lst_staking_hub/src/unstake.rs:125-135 | For every chain a hub can be instantiated on and every epoch length below (blocks - 1) * AVERAGE_BLOCK_TIME, a run from instantiation, with blocks no further apart than that time, undelegates two batches in one staking epoch and queues both |
| MeetingBatches.SecondBatchIsLost | contracts/lst_staking_hub/src/unstake.rs:206-248 | At the end of that epoch the second batch's message is dropped: the chain keeps 600 coins the hub no longer counts, and nothing is on its way for the batch |
| FifoRuns.RunReceives | contracts/lst_staking_hub/src/unstake.rs:298-328 | In every state of every run, every coin that came in to be withdrawn can still be spent on a release or was spent on one: none lost to rounding, none spent twice; and if the unstaking period was never lengthened, every released batch is past it |
| FifoRuns.PassIsOnePassOverAll | contracts/lst_staking_hub/src/unstake.rs:334-412 | However many passes and withdrawals came before, and whenever, a pass of the hub ends with the batches and leftover of a single pass over all records with all the coins that ever came in |
| BackedReleases.ReachableIsBacked | contracts/lst_staking_hub/src/unstake.rs:206-248 | In every state of a calm run without loss of unbonding coins, what passes can spend, what unbonds and what is queued to be unstaked cover every batch not yet released |
| BackedReleases.MaturedBatchIsReleased | contracts/lst_staking_hub/src/unstake.rs:334-412 | On such a run, as soon as what is still queued or unbonding is owed to later batches only, a pass releases a matured batch, with any number of batches under way |
| BackedReleases.MaturedBatchesAreReleased | contracts/lst_staking_hub/src/unstake.rs:334-412 | So once nothing is queued or unbonding, a pass releases every matured batch |
| BackedReleases.MaturedClaimIsPaid | contracts/lst_staking_hub/src/unstake.rs:438-503 | Every unstake is paid in the end: on such a run in which no withdrawal lists a batch twice, a user's withdrawal of a matured batch, with only later ones still out, succeeds and pays the claim to the coin, and if the claim is worth no coin there is nothing to withdraw |
| Theorems.ReachableIsSolvent | contracts/lst_staking_hub/src/unstake.rs:438-503 | In every state of every run that lists no batch twice in a withdrawal, slashing included, the coins set aside cover all open claims, exceed them by at most (entries - 1) for each released batch, and are in the bank beside the coins waiting to be staked |
| Theorems.OrderlyRunsOverpayNothing | contracts/lst_staking_hub/src/state.rs:66-83 | Such runs overpay nothing |
| DoubledWithdrawal.OneUserIsPaidTheOthersCoins | contracts/lst_staking_hub/src/unstake.rs:428-435 | A run from instantiation in which one user lists a batch twice and is paid the coins set aside for two, and the other's withdrawal fails |
| Theorems.WithdrawOutcome | contracts/lst_staking_hub/src/unstake.rs:438-503 | In every sound world, for any list of batches: a withdrawal succeeds exactly if the period can have passed and what is owed plus the repeated claims is positive and set aside; it pays that sum, which is what is owed exactly if no positive claim is listed twice, and the shortfall of the coins set aside grows by exactly the repeated claims |
| Theorems.WithdrawSucceedsIff | contracts/lst_staking_hub/src/unstake.rs:438-503 | Where nothing was overpaid before, a withdrawal that lists no batch twice succeeds exactly if the period can have passed and the user is owed something once the pass has released what it can; it is paid that to the coin, in whatever order users come |
| Theorems.ReachableIsSlashFree | contracts/lst_staking_hub/src/contract.rs:47-194 | The invariant of slash-free runs holds in every state of every run without slashing |
| Theorems.SlashFreeTotals | contracts/lst_staking_hub/src/contract.rs:268-312 | In every state of every run without slashing: the hub counts no more than the chain holds and has queued, no check lowers its total, a check fails exactly if the chain holds something and the total is below the queued stake, nothing was ever written off, and the rate is at least 1 and covered |
| Theorems.SlashFreeConservation | contracts/lst_staking_hub/src/unstake.rs:213-226 | In every state of every run without slashing, every coin ever staked is staked, due to an unreleased batch, set aside, or paid out, exactly |
| Theorems.RateNeverFalls | packages/lst_common/src/hub.rs:179-191 | Over any stretch of a run without slashing in which there are tokens, the rate at the end is no lower than at the beginning |
| RateFalls.RefreshLowersIff | packages/lst_common/src/hub.rs:179-191 | While the stake covers the tokens at a rate of at least 1, a refresh lowers the rate exactly if there is no token and the rate was above 1 |
| RateFalls.RateFallsIff | packages/lst_common/src/hub.rs:179-191 | Whatever the step but a slash: the rate falls exactly if it was above 1, the step succeeds, and it is a check, burn or unstake of the last tokens that gets to the rate, a restake without tokens, or a first stake that mints nothing at the old rate or follows its check's reset with too little behind each token; but for the stake it falls to 1 |
| RateFalls.SomeStepLowers | packages/lst_common/src/hub.rs:179-191 | Over any stretch of a run without slashing that ends with a lower rate, such a step took place |
| FallenRun.RateFallsToOne | contracts/lst_staking_hub/src/contract.rs:300-308 | A calm run from instantiation on which rewards raise the rate to 1.5 and the unstake of all tokens sets it to 1 |
| Theorems.ReachableIsCalm | contracts/lst_staking_hub/src/contract.rs:47-194 | Every state of a calm run is calm |
| Theorems.CalmTotals | contracts/lst_staking_hub/src/contract.rs:268-312 | In every state of a calm run the total is exactly what the chain holds and has queued, the epoch record reads as the queue, and a slashing check succeeds |
| Theorems.OneBatchPerEpoch | contracts/lst_staking_hub/src/unstake.rs:125-135 | A batch undelegated on pace finds nothing of an earlier one queued, and the record then holds its own worth only |
| Theorems.BatchesNeverMeet | contracts/lst_staking_hub/src/unstake.rs:108-144 | In a calm run every batch is undelegated in a later staking epoch than the one before |
| Theorems.UnstakeKeepsDenominator | contracts/lst_staking_hub/src/unstake.rs:33-104 | The check inside an unstake counts supply plus requests from before it, the check of its burn those from after; the two counts are the same, or lower by exactly the batch undelegated |
| Liveness.StakeSucceedsIff | contracts/lst_staking_hub/src/stake.rs:26-163 | In a calm world a stake, its slashing check and its messages succeed exactly if the hub is open, the contracts around it are named, the funds are one coin of a positive amount in the right denomination (rewards: from the dispatcher), and the validators can take it |
| Liveness.StakedOkIff | contracts/lst_staking_hub/src/stake.rs:26-124 | Once its check succeeds, which error a stake gives first: dispatcher unset, sender, number of coins, amount or denomination, token unset, registry unset, no validators, or a sum beyond 128 bits |
| Liveness.EpochCheckSucceedsIff | contracts/lst_staking_hub/src/unstake.rs:108-144 | In a calm world the epoch check fails only over a batch that is due while no registry is named, or that is worth nothing or more than the listed validators hold |
| Liveness.UnstakeSucceedsIff | contracts/lst_staking_hub/src/unstake.rs:33-104 | In a calm world an unstake with its undelegation, burn and second check succeeds exactly if its sender may burn the tokens of a named token and a batch that is due can be undelegated |
| Liveness.UnstakeExecutesIff | contracts/lst_staking_hub/src/unstake.rs:33-104 | An unstake is executed exactly if its sender may and the epoch check goes through, and which error it gives first otherwise |
| Liveness.FirstStake | contracts/lst_staking_hub/src/stake.rs:70-89 | On a new hub, once the owner has named the contracts around it, the first stake mints one token for each coin and leaves the rate at 1 |
| Liveness.SomeHubStakes | contracts/lst_staking_hub/src/contract.rs:47-128 | A concrete new hub, and a run of naming and staking that meets the premises of the theorems on runs |
| ValidatorsRegistry.InstantiatedIsSeparate | contracts/lst_validators_registry/src/contract.rs:46-66 | A new registry excludes nobody and stores each validator under its own address |
| ValidatorsRegistry.CallsKeepSeparate | contracts/lst_validators_registry/src/contract.rs:92-136 | Over any calls the registered and the excluded stay disjoint, and if every validator added is given in the chain's own form, each stays stored under its own address |
| ValidatorsRegistry.LastCallDecides | contracts/lst_validators_registry/src/contract.rs:92-136 | After any calls every validator is on the list its own last successful call put it on, stored as it was given there, and where it was if there was none |
| ValidatorsRegistry.ListedTrulyIff | contracts/lst_validators_registry/src/contract.rs:103-106 | A registered validator is listed under its own address, with what the chain holds for it, exactly if it was last added in the chain's own form; otherwise it is listed under the form given, with what the chain lists under that |
| ValidatorsRegistry.SortIsStable | contracts/lst_validators_registry/src/contract.rs:294-294 | Validators with equal delegations keep their storage order |
| ValidatorsRegistry.HeldMapShows | contracts/lst_validators_registry/src/contract.rs:276-282 | The map of delegations has exactly the validators the chain lists, each with the amount of its last entry |
| ValidatorsRegistry.AnswersTruly | contracts/lst_validators_registry/src/contract.rs:269-297 | Where each validator is stored under its own address, the answer lists each registered one once, with the amount of the chain's last entry for it or 0 without one, the least delegated first |
| ValidatorsRegistry.RedelegationConserves | contracts/lst_validators_registry/src/contract.rs:170-210 | Redelegating panics exactly if an excluded validator holds something and there is no active one (or the sum leaves 128 bits); otherwise each excluded validator with a delegation, and no other, gets one message moving exactly that delegation, to each active one its own part |
| ValidatorsRegistry.RedelegationOverAnyCalls | contracts/lst_validators_registry/src/contract.rs:92-215 | The same over the lists any calls leave and over the chain's listing itself: each excluded validator shown to hold something gets its one message, moving all of that to the addresses stored for registered validators; where all were given in the chain's form these are registered, not excluded, and each gets its own part; with a registered validator the unwrap never panics |
| ValidatorsRegistry.MovesExact | contracts/lst_validators_registry/src/contract.rs:187-197 | What the moves give each active validator is exactly its own part, and nothing goes to any other |
| Rebalancing.ProxyMoves | contracts/lst_staking_hub/src/contract.rs:314-346 | The messages the hub sends for a list of moves, carried out, give each destination what the list gives it, take all of it from the source, and keep the total |
| Rebalancing.RedelegationCarriedOut | contracts/lst_validators_registry/src/contract.rs:170-210 | Carried out on the chain, a redelegation leaves nothing with its source, gives each active validator its own part, touches no other, and keeps the total |
| Rebalancing.RedelegationIsMove | contracts/lst_validators_registry/src/contract.rs:170-210 | With nothing queued to be taken from its source, that is a move of coins which the runs admit |
| Rebalancing.OneHolderKeepsBalance | contracts/lst_validators_registry/src/contract.rs:170-210 | With at most one excluded holder, redelegation widens no gap between active validators beyond the widest there was, or one coin |
| Rebalancing.BalancedIff | contracts/lst_validators_registry/src/contract.rs:170-210 | Amounts redelegated at once keep the balance of all possible active validators exactly if there is at most one of them |
| Rebalancing.TwoHoldersTip | contracts/lst_validators_registry/src/contract.rs:170-210 | A concrete redelegation of two coins that gives both to one of two equal validators |
| ValidatorsRegistry.Registry.constructor | contracts/lst_validators_registry/src/contract.rs:27-69 | The loop registers exactly the validators the chain knows |
| ValidatorsRegistry.Registry.AddValidator | contracts/lst_validators_registry/src/contract.rs:92-114 | Only the owner adds; the validator is stored as it was given, under the chain's own address, which is excluded no longer; one the chain does not know changes nothing |
| ValidatorsRegistry.Registry.RemoveValidator | contracts/lst_validators_registry/src/contract.rs:116-136 | Only the owner removes; the validator is excluded even if it was never registered |
| ValidatorsRegistry.Registry.QueryValidators | contracts/lst_validators_registry/src/contract.rs:269-297 | The query gives the sorted answer that `AnswersTruly` is about |
| ValidatorsRegistry.Registry.ProcessRedelegations | contracts/lst_validators_registry/src/contract.rs:138-215 | The loop over the excluded sends the messages that `RedelegationConserves` is about, or panics |
| RewardDispatcher.FeeIsShareRoundedUp | contracts/lst_reward_dispatcher/src/contract.rs:188-190 | The fee is the least number of coins not below the rate's share |
| RewardDispatcher.DispatchSplitsRewards | contracts/lst_reward_dispatcher/src/contract.rs:109-167 | The dispatch fails exactly for a paused hub, another sender, or a rate above 1 on positive rewards, each with its error; otherwise it sends the fee, which is the share rounded up, and stakes exactly the rest again, in that order, each in one message and neither of zero coins |
| RewardDispatcher.ExecuteDispatchRewards | contracts/lst_reward_dispatcher/src/contract.rs:109-167 | The handler's steps give the result `DispatchSplitsRewards` is about: guards, fee message, restaking message |

## Left out

- StakingHub.Hub.ExecuteStake: what is stored after an error is not stated, as the runtime undoes it; the same holds for the other handlers, and `StakingHub.Hub.Execute` states the undoing.
- Delegation.UndelegateToTargets: does not state the validators' remaining totals, which nothing reads after the pass.
- FifoRuns.PassIsOnePassOverAll: is about runs that never lengthen the unstaking period; a longer one set later would make batches already released count as not matured.
- Theorems.RateNeverFalls: is about stretches with tokens in every state, because the rate is set to 1 when none are left.
- Liveness.StakeSucceedsIff: that a transaction succeeds is stated for sums within 128 bits; a larger one outside the allocators still aborts in the code. The same holds for `Liveness.UnstakeSucceedsIff` and `Theorems.WithdrawSucceedsIff`.
- Sums beyond 128 or 64 bits outside the allocators: the code aborts, and an abort changes nothing.
- A staking epoch length of zero or a start above the current height, which instantiation does not check: single operations model the resulting panic, runs start on a chain with a positive length and a start already reached, as the hub's record demands.
- Pausing by other contracts, the other contracts' configuration, migration, versions: single checks.
- World.DrainOne: a queued message that cannot be carried out is dropped and the rest goes on. The simulated chain instead undoes the whole end of the epoch, because it runs it as one transaction; its comments say that fast-forwarding should not fail so. The difference shows only where a validator no longer has what is queued to be taken from it, after slashing or where batches meet.
- Messages, events, attributes: formats. The hub takes addresses in the chain's own form; the conversion the registry makes is a parameter.
- The chain's answer about delegations: the listing that the hub and the registry ask for, which has the validators with a positive delegation once each; `ChainAnswers` shows that it can be any such listing.
- Token balances and allowances: the token is its supply; the sender's balance and allowance are answers of the environment, and a burn beyond the supply fails. The token accepts zero amounts in the model.
- The redelegation and reward messages on the chain's queue: the hub sends them, and what they do to the chain is a step of its own; moving coins between validators keeps what is queued to be taken from each.
- Slashing of coins while they unbond: the hub does not adjust for it; fewer coins arrive and releases wait.
- The order in which storage walks string keys: any order that lists each key once. The library's sort is modelled as a stable insertion.
- Pagination and listing queries, and the estimate of withdrawable coins, which the code documents as approximate.
