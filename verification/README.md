# Verified models of the exchange, farming and locked-token contracts

A Dafny model of the contract logic in which MultiversX's exchange keeps value: prices that are hard to push around, energy that
follows locked tokens, a pool whose shares are never diluted, farms that can pay what they owe, schedules that always make up
100%, and two pro-rata payouts. Amounts are unbounded naturals, as BigUint is; energy is a signed integer. Contracts whose
endpoints change storage are classes with that storage as fields; what the loops compute is tied to specification functions about
which the properties are proved.

`dafny verify dfyconfig.toml` checks the whole project.

## The parts

- **Safe price** (`SafePrice.dfy`). The pair's 65,536-slot ring of cumulative observations against a plain running sum of
  what every round is credited with. Whatever the ring holds, a query for any round from the oldest recorded up to the current
  one returns exactly the running sum: by an exact slot, by interpolation (the division is exact), or by a simulated future
  observation. Time-weighted prices are floors of true means over rounds.
- **Energy and locks** (`Units.dfy`, `Math.dfy`, `Energy.dfy`, `LockOptions.dfy`, `LockedTokens.dfy`, `LockedAssets.dfy`).
  Energy-factory, token-unstake and lkmex-transfer work on one ledger. `held` follows attribution: the multiset of unlock epochs
  of the tokens a user's entry answers for. In every reachable state each stored entry is the signed sum of
  amount x (unlock epoch - last update epoch) over that multiset, every attributed, queued or travelling token unlocks at a
  month boundary within the longest lock from now, and queues are in the order they mature. Penalties are a curve over the
  options table; round trips over time restore the energy that doing nothing would have left.
- **Pool** (`Amm.dfy`, `LiquidityPool.dfy`, `PairContract.dfy`). Every endpoint extends a run in which the reserves behind a
  liquidity token, by their geometric mean, never fall, fees fed back through the pool included. Tokens held cover the reserves.
- **Staking farm** (`StakingFarm.dfy`, `FarmStaking.dfy`). Positions are units that carry the reward per share they were entered
  at. What all units are owed never exceeds the division constant times the unpaid base rewards; accumulated rewards never exceed
  the capacity; a user's total counts the tokens they own. The base implementation in `common/modules/farm/farm_base_impl` is
  composed of the hooks of `base_impl_wrapper.rs`. A boosted claim enters as an amount that is owed.
- **Milestones** (`Milestones.dfy`). The largest-remainder loop of the legacy factory, in place on an array.
- **Weekly energy** (`WeeklyEnergy.dfy`). Weekly rewards are shared by total energy, which depletes for every user every week.
  The contract never visits its users: it shifts buckets of tokens by the week their energy expires in. In every reachable state
  the total is exactly the sum of all users' depleted energies, and whatever users claim for a past week stays within the total
  that week ended with.
- **Boosted yields** (`BoostedFactors.dfy`, `BoostedPayouts.dfy`, `BoostedYields.dfy`). The five-week window of factors refines an
  unbounded history of changes. Claims are made with the energies of `WeeklyEnergy.dfy`, for up to four weeks in one call. Every
  reward set aside for a week waits for its first claim, remains for later ones, was paid, or was swept: `Conserved` adds this up
  over all weeks.
- **Farm with boosted yields** (`BoostedStaking.dfy`, `BoostedRuns.dfy`). Every endpoint of the staking farm on one storage: the
  books of the farm, the weekly counters, and the energies. What the books call `boostedOwed` is what the counters hold, every
  boosted claim is one of the weeks, and what users claim with stays within the farm supply of each week, so that claims cannot
  fail for want of rewards (`ClaimsSucceed`). The boosted claim of an endpoint is made before the settlement, wherever the source
  makes it; the two touch different weeks.
- **Price discovery** (`PriceDiscovery.dfy`). Phases, penalties and redemptions.

Preconditions say what the chain guarantees (payments are positive and exist, block, round and epoch counters move forward) and
what the stated property assumes of its inputs (a payment's tokens are among those attributed to its user). A revert is a `Failure` or
`false` that leaves the state as it was.

## Where the code does not do what it seems to

- `claimBoostedRewards` of farm-staking (`claim_only_boosted_staking_rewards.rs:32-62`) holds a cache of the reward reserve while
  `claim_only_boosted_payment` subtracts the payment from the stored reserve; the cache is then written back over it. The reserve
  goes on counting rewards that were paid, which everything owed does without. `ReserveExact`: over a run, the reserve is the
  accumulated less the paid rewards iff every such call paid nothing. `LostDeduction` is a run that loses a deduction: the reward
  is claimed a week after it accrued, out of what the week owes.
- The sweep of undistributed boosted rewards (`farm-boosted-yields/src/lib.rs:47-72`) takes what remains of collected weeks.
  `CollectUndistributedBoostedRewards`: a swept week is left with nothing iff someone claimed from it, or nothing was set aside
  for it. `RewardsStranded` is a run in which a week's rewards stay in its own counter, out of reach of claims and sweep.
- The counter a boosted claim is taken from (`farm-boosted-yields/src/lib.rs:252-256`) covers it iff the reward is at most what the
  week has not paid yet (`GetUserRewardsForWeek`); otherwise the claim reverts, and so does the endpoint it is part of. Energies
  never exceed the week's total (`ClaimMulti`). Farm amounts can exceed its supply, and only in one way: while no configuration is
  stored, `claim_boosted_yields_rewards` returns zero and leaves the claim progress alone (lib.rs:101-107), so that positions can
  grow by tokens staked after the week. From the first configuration on every endpoint claims before it raises a position. So the
  counter covers every claim of a week that ended under a configuration, and every claim of an earlier week for which, when the
  first configuration was stored, those who could claim it held no more than its supply among them (the set `early` of
  `SetBoostedYieldsFactors`): nothing but two zero constants makes such a claim fail (`ClaimsSucceed`). Of other weeks a claim
  fails, by `GetUserRewardsForWeek`, iff it asks for more than is left; `ClaimBeyondSupply` is a run in which it does.
- `compounded_reward` is a part of a farm token's amount until a claim with a new value (`claim_stake_farm_rewards.rs:72-85`)
  replaces the amount by less than it. `CompoundedCounted`: over every run, this is the only way.
- `get_amount_in` (`amm.rs:57-68`) asks for one unit more than needed iff its division comes out even (`AmountInIsLeast`);
  `AmountInAsksTooMuch` is a pair where it does.
- `distribute_leftover` (`locked_asset.rs:123-151`) always reaches 100,000, but raises a milestone twice, or one without a
  fraction, iff there are more units than fractions (`DistributeLeftover`); `HandedToAnEmptyMilestone` is such an input. This is
  no fault of `create_new_unlock_milestones`, which never passes one on (`FewLeftOver`).

## Model

| member | source | states |
|---|---|---|
| SafePrice.AnswersArePermanent | dex/pair/src/safe_price_view.rs:311-374 | an answer about a past round is never revised, whatever later rounds are credited with |
| SafePrice.NewObservationIsRecorded | dex/pair/src/safe_price.rs:125-149 | weighting the current reserves by the rounds elapsed since the newest observation records the running per-round sum of the new round, with weight minus round constant |
| SafePrice.InterpolateExact | dex/pair/src/safe_price_view.rs:455-477 | for accumulators that grow by the same amount each round, the weighted interpolation divides without remainder |
| SafePrice.InterpolationIsRecorded | dex/pair/src/safe_price_view.rs:425-477 | between neighbouring observations of rounds credited alike, the interpolated observation is exactly what would have been recorded in the searched round |
| SafePrice.WeightedAmountsAreMeans | dex/pair/src/safe_price_view.rs:479-518 | for observations of rounds s <= e the weight difference is the round difference; the call succeeds iff s < e, and each weighted amount is then the floor of the mean over rounds s+1..e |
| SafePrice.WindowMeanBetween | dex/pair/src/safe_price_view.rs:479-518 | a window mean lies between any bounds on the amounts of the rounds in it |
| SafePrice.WindowMeanPositive | dex/pair/src/safe_price_view.rs:204-250 | where every round of the window holds liquidity the mean is positive, so no price divides by zero |
| SafePrice.SumConstant | dex/pair/src/safe_price.rs:125-149 | rounds credited alike add the amount times their number |
| SafePrice.RingOrder | dex/pair/src/safe_price_view.rs:376-392 | the newest slot is the latest and the oldest slot the earliest round of the ring |
| SafePrice.SearchStarts | dex/pair/src/safe_price_view.rs:394-403 | the first segment of the rotated ring narrows the searched run |
| SafePrice.ProbeNarrows | dex/pair/src/safe_price_view.rs:404-420 | each probe that misses leaves everything left of the left index older, and right of the right index newer, than the searched round |
| SafePrice.SearchEnds | dex/pair/src/safe_price_view.rs:394-423 | when the indices cross, the last probe and its neighbour in ring order strictly bracket the searched round |
| SafePrice.OtherRun | dex/pair/src/safe_price_view.rs:394-403 | the segment that is not searched cannot hold the round |
| SafePrice.NeighbourSlots | dex/pair/src/safe_price_view.rs:431-446 | the neighbour of a slot that is not the newest is the following slot, slot MAX being followed by slot 1; both are running sums, of rounds credited alike in between |
| SafePrice.InsertKeepsRing | dex/pair/src/safe_price.rs:79-123 | appending below capacity and overwriting the oldest slot at capacity keep rounds strictly increasing from oldest to newest |
| SafePrice.InsertKeepsFaithful | dex/pair/src/safe_price.rs:79-123 | the update keeps every live slot equal to the running sum of its round, and the rounds between neighbours credited alike |
| SafePrice.NextUpdateOk | dex/pair/src/safe_price.rs:79-123 | an update in a later round keeps the whole oracle invariant |
| SafePrice.FirstUpdateOk | dex/pair/src/safe_price.rs:98-104 | the very first update starts a ring that satisfies the invariant |
| SafePrice.SimulationIsRecorded | dex/pair/src/safe_price_view.rs:311-374 | an observation simulated up to the current round is the running sum of that round |
| SafePrice.SearchInterpolates | dex/pair/src/safe_price_view.rs:425-446 | interpolating from the slot the search ended on, towards the neighbour across the searched round, gives the running sum; the wrap from slot 1 back to MAX is never needed |
| SafePriceView.SafePriceOracle.UpdateSafePrice | dex/pair/src/safe_price.rs:79-123 | one observation per round while there is liquidity, appended or over the oldest slot; the invariant, and the credits of every past round, are kept |
| SafePriceView.SafePriceOracle.PoolAction | dex/pair/src/contexts/base.rs:100-115 | a pool endpoint observes the reserves of the rounds gone by before its own changes are written; the very first observation holds the reserves from before the call |
| SafePriceView.SafePriceOracle.AdvanceRound | dex/pair/src/safe_price.rs:79-96 | rounds that begin are credited with what the pool holds |
| SafePriceView.SafePriceOracle.GetOldestPriceObservation | dex/pair/src/safe_price_view.rs:376-392 | returns the earliest round still in the ring, in both states of the ring; fails only when nothing was ever observed |
| SafePriceView.SafePriceOracle.PriceObservationByBinarySearch | dex/pair/src/safe_price_view.rs:394-423 | for every searchable round the search terminates, every access is a valid slot, and it returns the exact slot, or a slot whose ring neighbour strictly brackets the round |
| SafePriceView.SafePriceOracle.PriceObservationByLinearInterpolation | dex/pair/src/safe_price_view.rs:425-477 | from the slot the search ended on, the result is the running sum of the searched round |
| SafePriceView.SafePriceOracle.SearchedObservation | dex/pair/src/safe_price_view.rs:354-373 | an exact slot or an interpolation, whichever the search ends on, is the running sum of the searched round |
| SafePriceView.SafePriceOracle.GetPriceObservation | dex/pair/src/safe_price_view.rs:311-374 | for rounds from the oldest recorded on, which every caller checks, succeeds exactly up to the current round, and then returns exactly the running per-round sum of reserves and LP supply at that round |
| SafePriceView.SafePriceOracle.GetWeightedAmounts | dex/pair/src/safe_price_view.rs:311-374 | the means of reserves and LP supply over the window asked for |
| SafePriceView.SafePriceOracle.GetSafePrice | dex/pair/src/safe_price_view.rs:204-250 | the output worth of an input at the floor means of the window; fails exactly for windows that are not recorded or empty |
| SafePriceView.SafePriceOracle.GetLpTokensSafePrice | dex/pair/src/safe_price_view.rs:85-152 | both reserve shares of an amount of LP tokens at the window's means |
| SafePriceView.SafePriceOracle.GetDefaultOffsetRounds | dex/pair/src/safe_price_view.rs:520-534 | the default offset is as long as wanted but never reaches past the oldest observation |
| SafePriceView.SafePriceOracle.GetSafePriceByDefaultOffset | dex/pair/src/safe_price_view.rs:156-202 | once the current round exceeds the oldest, the default window is admissible |
| EnergyLedger.EntryDetermined | locked-asset/energy-factory/src/energy.rs:62-144 | a holding and an epoch leave exactly one right energy entry |
| EnergyLedger.DepletedTracks | locked-asset/energy-factory/src/energy.rs:62-76 | depleting, however often and whenever, keeps an entry equal to the signed sum of amount times remaining epochs |
| EnergyLedger.AddedTracks | locked-asset/energy-factory/src/energy.rs:92-100 | tokens added with their remaining epochs keep the entry right |
| EnergyLedger.RemovedTracks | locked-asset/energy-factory/src/energy.rs:112-133 | tokens taken out with their signed remaining epochs keep the entry right |
| EnergyLedger.RefundedTracks | locked-asset/energy-factory/src/energy.rs:102-110 | giving back the energy that went negative keeps the entry right |
| EnergyLedger.Energy.Deplete | locked-asset/energy-factory/src/energy.rs:62-76 | energy falls by total tokens times epochs passed, and the entry is dated now |
| EnergyLedger.Energy.AddEnergyRaw | locked-asset/energy-factory/src/energy.rs:78-81 | both counters move by what is given |
| EnergyLedger.Energy.RemoveEnergyRaw | locked-asset/energy-factory/src/energy.rs:83-90 | both counters move down by what is given |
| EnergyLedger.Energy.AddAfterTokenLock | locked-asset/energy-factory/src/energy.rs:92-100 | adds amount times remaining epochs, nothing for tokens past their epoch |
| EnergyLedger.Energy.RefundAfterTokenUnlock | locked-asset/energy-factory/src/energy.rs:102-110 | returns the energy lost since the unlock epoch |
| EnergyLedger.Energy.DepleteAfterEarlyUnlock | locked-asset/energy-factory/src/energy.rs:112-120 | takes the energy of the epochs still to come |
| EnergyLedger.Energy.UpdateAfterUnlockAny | locked-asset/energy-factory/src/energy.rs:122-133 | on either side of the unlock epoch the signed remaining epochs leave the entry |
| EnergyLedger.Energy.UpdateAfterUnlockEpochChange | locked-asset/energy-factory/src/energy.rs:135-144 | moving tokens to an epoch that has not passed adds the difference of the two epochs; moving them to one that has passed only takes them out |
| Math.InterpolationShape | common/modules/math/src/lib.rs:8-22 | interpolation stays between its end values, meets them at the ends, and is non-decreasing |
| Math.AverageIsCeiling | common/modules/math/src/lib.rs:33-46 | the rounded-up weighted average is the ceiling of the weighted mean |
| Math.AverageBetween | common/modules/math/src/lib.rs:33-46 | the average lies between any bounds on both values |
| LockOptions.SortLockOptions | locked-asset/energy-factory/src/lock_options_endpoints.rs:60-62 | sorting gives a sorted permutation |
| LockOptions.SortedUnique | locked-asset/energy-factory/src/lock_options_endpoints.rs:60-62 | there is only one sorted arrangement of distinct options, so which sorting is used does not matter |
| LockOptions.PushLockOptions | locked-asset/energy-factory/src/lock_options_endpoints.rs:24-42 | options are appended in order; the call fails on one that is itself invalid |
| LockOptions.RequireValidNeighbours | locked-asset/energy-factory/src/lock_options_endpoints.rs:64-83 | comparing neighbours accepts exactly the strictly ascending tables |
| LockOptions.AddLockOptions | locked-asset/energy-factory/src/lock_options_endpoints.rs:24-52 | succeeds iff all options together can be arranged into a valid table, and then stores that table |
| LockOptions.OptionsOnlyGrow | locked-asset/energy-factory/src/lock_options_endpoints.rs:24-52 | adding options never shortens the longest lock |
| LockOptions.StartOfMonthInHorizon | locked-asset/energy-factory/src/lock_options.rs:41-44 | a listed lock ends at the last start of a month before it would, in the future, within the longest lock |
| LockOptions.UpperEstimateInHorizon | locked-asset/energy-factory/src/lock_options.rs:46-65 | rounding a merged epoch up stays in the future and within the longest lock; a month boundary stays, and off a boundary the month above is chosen iff it is within the longest lock from now |
| LockOptions.CalculatePenaltyPercentageFullUnlock | locked-asset/energy-factory/src/penalty.rs:11-49 | for every remaining time up to the last option, and no other, the percentage is the floor of the line between the two options around it, or from nothing to the first one |
| LockOptions.AnySegment | locked-asset/energy-factory/src/penalty.rs:22-41 | segments agree where they meet, so any bracketing segment gives the same penalty |
| LockOptions.FullPenaltyIs | locked-asset/energy-factory/src/penalty.rs:11-49 | whichever pair of options brackets the remaining time, the penalty is the floor of the line between them |
| LockOptions.FullPenaltyDetermined | locked-asset/energy-factory/src/penalty.rs:11-49 | this leaves exactly one penalty for every remaining time |
| LockOptions.PenaltyAtOptions | locked-asset/energy-factory/src/penalty.rs:11-49 | at an option's own length the penalty is the option's |
| LockOptions.PenaltyMonotone | locked-asset/energy-factory/src/penalty.rs:11-49 | the penalty never falls with remaining time |
| LockOptions.PenaltyBounded | locked-asset/energy-factory/src/penalty.rs:11-49 | it is at most 100%, and strictly below for anything shorter than the last option |
| LockOptions.CalculatePenaltyPercentagePartialUnlock | locked-asset/energy-factory/src/unlock_with_penalty.rs:162-174 | with f and n the full penalties before and after, the floor of (f - n) * 10,000 / (10,000 - n); neither underflows nor divides by zero, and fails exactly beyond the last option |
| LockOptions.CalculatePenaltyAmount | locked-asset/energy-factory/src/unlock_with_penalty.rs:180-196 | succeeds exactly for a shorter target within the curve; the floor of the amount times the point on the line between the options, or times the partial percentage |
| LockOptions.ReduceThenUnlock | locked-asset/energy-factory/src/unlock_with_penalty.rs:107-196 | reducing the lock and unlocking early in the same epoch never leaves less than unlocking at once, and at most amount / 10,000 + 2 more |
| LockedTokens.MergeWithWeight | locked-asset/energy-factory/src/token_merging.rs:38-52 | one merge keeps at least the weight of its parts, and exceeds it by less than one epoch per token |
| LockedTokens.MergedAmount | locked-asset/energy-factory/src/token_merging.rs:98-155 | merging neither makes nor loses tokens |
| LockedTokens.MergedBetween | locked-asset/energy-factory/src/token_merging.rs:38-52 | the merged unlock epoch lies between those of the parts |
| LockedTokens.MergedWeight | locked-asset/energy-factory/src/token_merging.rs:98-155 | over a whole merge the weight never falls and grows by less than one epoch per token and merge |
| LockedTokens.MergedInHorizon | locked-asset/energy-factory/src/token_merging.rs:138-152 | a merged token unlocks at the start of a month, in the future, within the longest lock |
| LockedTokens.LedgerUpdated | locked-asset/energy-factory/src/energy.rs:184-189 | replacing one user's entry by one right for their new holding keeps the ledger of all users right |
| LockedTokens.LedgerOutlives | locked-asset/energy-factory/src/lock_options.rs:41-65 | epochs passing and options growing keep every token within the lock horizon |
| LockedTokens.PaymentsInHorizon | locked-asset/lkmex-transfer/src/lib.rs:121-150 | tokens waiting outside a ledger keep to the same horizon as their payments |
| LockedTokens.MovedTracks | locked-asset/energy-factory/src/energy.rs:135-144 | an entry changed by the difference of unlock epochs is right for the moved tokens |
| LockedTokens.QueuePushed | locked-asset/token-unstake/src/fees_handler.rs:36-47 | pushing keeps a user's queue in the order entries mature |
| LockedTokens.MaturedAreInFront | locked-asset/token-unstake/src/unbond_tokens.rs:22-26 | in such a queue the matured entries are exactly those at the front |
| LockedTokens.SameTokensSameEnergy | locked-asset/token-unstake/src/cancel_unstake.rs:27-55 | once a user answers for the same tokens again, the entry is what doing nothing and depleting would have left |
| LockedAssets.LockBaseAsset | locked-asset/energy-factory/src/extend_lock.rs:55-66 | locking adds exactly the new tokens to what the entry tracks |
| LockedAssets.ExtendNewTokenPeriod | locked-asset/energy-factory/src/extend_lock.rs:68-95 | extending swaps the tokens for ones with the new epoch in what the entry tracks |
| LockedAssets.RefundAll | locked-asset/energy-factory/src/lib.rs:159-186 | the unlock loop takes every payment out of the entry and adds up the output; it fails iff one is empty or not matured |
| LockedAssets.TakeParts | locked-asset/energy-factory/src/token_merging.rs:106-142 | the merge loop takes every part out of the entry and keeps their running average |
| LockedAssets.MergeInto | locked-asset/energy-factory/src/token_merging.rs:98-155 | parts out, merged token in, at the capped start of month |
| LockedAssets.ReturnAny | locked-asset/token-unstake/src/cancel_unstake.rs:32-48 | tokens come back with their signed remaining epochs on either side of the unlock epoch |
| LockedAssets.ReturnQueue | locked-asset/token-unstake/src/cancel_unstake.rs:27-58 | the cancel loop returns every locked token of the queue to the entry |
| LockedAssets.AddTransferred | locked-asset/lkmex-transfer/src/energy_transfer.rs:46-58 | one arriving token, matured or not, enters with its signed remaining epochs |
| LockedAssets.AddEnergyToDestination | locked-asset/lkmex-transfer/src/energy_transfer.rs:40-61 | the destination's entry tracks all arriving tokens as well |
| LockedAssets.DeductEnergyFromSender | locked-asset/lkmex-transfer/src/energy_transfer.rs:14-38 | the sender's entry stops tracking the tokens; fails iff one is unlockable |
| LockedAssets.LockedAssetContracts.AdvanceEpoch | locked-asset/energy-factory/src/energy.rs:191-203 | passing epochs keep every ledger, queue and transfer in order |
| LockedAssets.LockedAssetContracts.AddLockOptionsEndpoint | locked-asset/energy-factory/src/lock_options_endpoints.rs:24-52 | options grow iff the table stays valid, and every stored token stays within the horizon |
| LockedAssets.LockedAssetContracts.RequireIsListedLockOption | locked-asset/energy-factory/src/lock_options.rs:30-39 | accepts exactly the listed lock lengths |
| LockedAssets.LockedAssetContracts.ChooseUnlockEpoch | locked-asset/energy-factory/src/lib.rs:119-130 | a listed lock ends at the start of a month in the future; the check against it never fires |
| LockedAssets.LockedAssetContracts.GetUpdatedEnergyEntryForUser | locked-asset/energy-factory/src/energy.rs:191-203 | the entry read is dated now and right for the user's tokens |
| LockedAssets.LockedAssetContracts.GetEnergyAmountForUser | locked-asset/energy-factory/src/energy.rs:204-209 | the energy a user shows is what their tokens are worth at the current epoch, or nothing if that is negative |
| LockedAssets.LockedAssetContracts.SetEnergyEntry | locked-asset/energy-factory/src/energy.rs:184-189 | storing a right entry keeps the ledger |
| LockedAssets.LockedAssetContracts.StoreLocked | locked-asset/energy-factory/src/extend_lock.rs:26-66 | the stored entry tracks the new locked tokens on top of the rest, and they keep to the horizon |
| LockedAssets.LockedAssetContracts.LockTokens | locked-asset/energy-factory/src/lib.rs:112-147 | locks for listed lengths; the destination's entry tracks the new tokens, all others are untouched |
| LockedAssets.LockedAssetContracts.UnlockTokens | locked-asset/energy-factory/src/lib.rs:149-190 | matured tokens come out one to one and leave the entry; succeeds iff all have matured |
| LockedAssets.LockedAssetContracts.ExtendLockPeriod | locked-asset/energy-factory/src/lib.rs:193-234 | swaps tokens for later ones iff the new epoch is later |
| LockedAssets.LockedAssetContracts.MergeTokens | locked-asset/energy-factory/src/token_merging.rs:98-155 | one token for many, at the rounded average moved to a month boundary; succeeds iff none is unlockable |
| LockedAssets.LockedAssetContracts.ReduceLockPeriodCommon | locked-asset/energy-factory/src/unlock_with_penalty.rs:107-160 | takes the tokens out of the entry and charges the penalty; succeeds iff the target is shorter and something remains; remaining locks never exceed the curve |
| LockedAssets.LockedAssetContracts.UnlockEarly | locked-asset/energy-factory/src/unlock_with_penalty.rs:38-56 | the tokens leave the entry and wait in the queue against their amount less the floor of the penalty on the line between the options |
| LockedAssets.LockedAssetContracts.ReduceLockPeriod | locked-asset/energy-factory/src/unlock_with_penalty.rs:61-105 | what the penalty leaves is locked to the earlier start of month; the penalty is split without loss |
| LockedAssets.LockedAssetContracts.BurnPenalty | locked-asset/token-unstake/src/fees_handler.rs:70-83 | the floor of the burn share is burned, the rest forwarded |
| LockedAssets.LockedAssetContracts.CancelUnbond | locked-asset/token-unstake/src/cancel_unstake.rs:16-67 | every token of the queue returns to the entry and the queue is empty; fails iff it was |
| LockedAssets.LockedAssetContracts.ClaimUnlockedTokens | locked-asset/token-unstake/src/unbond_tokens.rs:14-66 | pops exactly the matured entries and pays their unlocked amounts; every locked amount is split, entry by entry, into what was unlocked, which is burned, and the penalty, of which the floor of the burn share is burned and the rest forwarded |
| LockedAssets.LockedAssetContracts.PopMatured | locked-asset/token-unstake/src/unbond_tokens.rs:19-58 | the loop pops the entries from the front as long as they are matured, and collects the penalties still to be settled, each with its entry |
| LockedAssets.LockedAssetContracts.BurnPenalties | locked-asset/token-unstake/src/unbond_tokens.rs:60-63 | every penalty is settled for its entry, by itself |
| LockedTokens.SplitsAddUp | locked-asset/token-unstake/src/unbond_tokens.rs:30-58 | with every entry split without loss, the totals are too |
| LockedAssets.LockedAssetContracts.LockFunds | locked-asset/lkmex-transfer/src/lib.rs:119-150 | tokens in transit leave the sender's entry; one transfer per pair of users, and none while the sender cools down |
| LockedAssets.LockedAssetContracts.ReleaseFunds | locked-asset/lkmex-transfer/src/lib.rs:63-98 | tokens in transit enter the entry of whoever receives them |
| LockedAssets.LockedAssetContracts.Withdraw | locked-asset/lkmex-transfer/src/lib.rs:63-81 | the receiver's entry tracks the tokens, which are no longer in transit; only after the minimum epochs, and not while the receiver cools down |
| LockedAssets.LockedAssetContracts.CancelTransfer | locked-asset/lkmex-transfer/src/lib.rs:83-98 | the sender's entry tracks the tokens again, and the sender no longer cools down |
| LockedTokens.MoreTokensMoreEnergy | locked-asset/token-unstake/src/cancel_unstake.rs:27-55 | a user who answers for more tokens than before has, besides the energy that doing nothing would have left, what the new ones are worth |
| LockedAssets.UnlockEarlyThenCancel | locked-asset/token-unstake/src/cancel_unstake.rs:16-67 | unlocking early and cancelling at any later epoch, on either side of the unlock epoch, brings back every token of the queue and leaves the energy that doing nothing would have left, plus what the tokens queued before are worth |
| LockedAssets.LockFundsThenCancel | locked-asset/lkmex-transfer/src/lib.rs:83-98 | a cancelled transfer leaves the sender's tokens and energy as doing nothing would have |
| LockedAssets.ReduceLockThenUnlockEarly | locked-asset/energy-factory/src/unlock_with_penalty.rs:38-196 | the two endpoints called one after the other in an epoch: the queue never gets less than unlocking at once would have left, and at most amount / 10,000 + 2 more |
| Amm.AmountOutIsGreatest | dex/pair/src/amm.rs:44-55 | a fixed input buys the greatest amount that keeps the product of the reserves, counting the input after fees |
| Amm.AmountOutBelowReserve | dex/pair/src/pair_actions/swap.rs:249-249 | a swap never pays the whole reserve, so the check against it never fires |
| Amm.NoFeeIsZeroFee | dex/pair/src/amm.rs:32-42 | the formula without a fee is the one with a fee of zero |
| Amm.AfterSpecialFee | dex/pair/src/config.rs:27-34 | with special fee at most total fee, withholding it leaves at least what the price counted |
| Amm.SwapKeepsProduct | dex/pair/src/pair_actions/swap.rs:233-265 | the product of the reserves never falls, even with the special fee withheld from the input |
| Amm.SufficientInput | dex/pair/src/amm.rs:57-68 | an input suffices for an output iff it covers the exact quotient |
| Amm.AmountInSuffices | dex/pair/src/amm.rs:57-68 | swapping the input asked for an output yields at least it; the input exceeds the least sufficient one by at most one |
| Amm.AmountInIsLeast | dex/pair/src/amm.rs:57-68 | one less still suffices iff the quotient comes out even |
| Amm.AmountInAsksTooMuch | dex/pair/src/amm.rs:57-68 | at reserves 99,700 and 100,001, which a pair can be opened with, and a fee of 0.3%, two are asked for an output of one that one buys |
| Amm.InputOfOutput | dex/pair/src/amm.rs:44-68 | asking for what an input buys costs at most one unit more than it |
| Amm.SplittingNeverPays | dex/pair/src/pair_actions/swap.rs:233-265 | two swaps of parts never buy more than one swap of the whole |
| Amm.ThereAndBack | dex/pair/src/pair_actions/swap.rs:233-265 | trading there and back never returns more than was put in |
| PoolShares.EachSideKept | dex/pair/src/liquidity_pool.rs:22-78 | if neither reserve falls behind the supply, the product of reserves times the old supply squared does not fall behind |
| PoolShares.NotDilutedTransitive | dex/pair/src/liquidity_pool.rs:22-117 | shares that are not diluted by two steps are not diluted by both |
| PoolShares.RunKeepsShares | dex/pair/src/liquidity_pool.rs:22-117 | over any run, reserve product times earlier supply squared is at least earlier product times supply squared; from the first liquidity on, supply is at least 1,000 and both reserves are positive |
| PoolShares.AddingKeepsShares | dex/pair/src/liquidity_pool.rs:22-42 | adding liquidity dilutes no one |
| PoolShares.RemovingKeepsShares | dex/pair/src/liquidity_pool.rs:65-78 | removing liquidity dilutes no one |
| PoolShares.RemovalKeepsShares | dex/pair/src/liquidity_pool.rs:80-117 | while the minimum liquidity stays, both reserves exceed what is removed and no one is diluted |
| PoolShares.AddThenRemove | dex/pair/src/liquidity_pool.rs:22-117 | removing right away what was added never returns more of either token than was put in |
| PoolShares.ShareIs | dex/pair/src/liquidity_pool.rs:80-117 | liquidity redeems for the floor of its part of a reserve |
| PoolShares.OptimalAmounts | dex/pair/src/liquidity_pool.rs:119-165 | all of the first token and the floor of its value in the second if that was paid, and otherwise the other way around; never more than was paid |
| PoolShares.QuoteBack | dex/pair/src/liquidity_pool.rs:144-153 | of the two quotes one always fits, so the check that the optimal amount was paid never fires |
| PoolShares.PaidSwapKeepsShares | dex/pair/src/pair_actions/swap.rs:233-265 | a swap up to the price dilutes no one, whatever part of the special fee is withheld |
| PoolShares.SwapNoFeeKeepsShares | dex/pair/src/liquidity_pool.rs:195-215 | the swap without a fee dilutes no one |
| PoolShares.SlicesKeepShares | dex/pair/src/fee.rs:161-170 | the loop of local swaps of fee slices dilutes no one |
| PairContract.PoolAddLiquidity | dex/pair/src/liquidity_pool.rs:22-42 | mints the largest liquidity that costs the present owners nothing on either side; fails iff that is zero |
| PairContract.PoolAddInitialLiquidity | dex/pair/src/liquidity_pool.rs:44-63 | the smaller amount becomes the supply, of which the minimum stays with the contract |
| PairContract.PoolRemoveLiquidity | dex/pair/src/liquidity_pool.rs:65-117 | pays the floors of both shares; the check of the reserves never fires |
| PairContract.SwapSafeNoFee | dex/pair/src/liquidity_pool.rs:195-215 | swaps iff something, and not everything, is paid |
| PairContract.SendFeeSlice | dex/pair/src/fee.rs:182-241 | what leaves the contract and what the reserves gain add up to the slice; fails iff there is no route, the local swap pays nothing, or the trusted pair refuses |
| PairContract.SendSlices | dex/pair/src/fee.rs:161-170 | slices go out one after the other, each at the reserves the one before left, without loss |
| PairContract.SendFee | dex/pair/src/fee.rs:125-171 | the collector gets the floor of its cut, every destination the floor of its part of the rest; both and what is left over make up the fee; less than one unit per destination is left over; fails iff the collector or one of the slices does |
| PairContract.RouteOfSlice | dex/pair/src/fee.rs:182-241 | by the token asked for: a slice leaves as it is for its own token, is swapped in the pool for the pool's other one, and for a foreign token leaves as it is iff its own token is trusted against it, and swapped iff only the other one is |
| PairContract.FeePartsAre | dex/pair/src/fee.rs:133-160 | cut and slice are the floors of their parts of the fee |
| PairContract.FeeOnIs | dex/pair/src/pair_actions/swap.rs:253-258 | while there is a collector or a destination, the floor of the special fee percentage of the input is withheld, and otherwise nothing |
| PairContract.SwapAndFeeKeepShares | dex/pair/src/pair_actions/swap.rs:122-149 | a swap and the fee it sends dilute no one, and the check of the product never fires |
| PairContract.AddedFollows | dex/pair/src/pair_actions/add_liq.rs:71-102 | adding liquidity raises the product, so the check of the product never fires |
| PairContract.Pair.SetFeePercents | dex/pair/src/config.rs:27-34 | accepts exactly special <= total <= 5% |
| PairContract.Pair.SetupFeesCollector | dex/pair/src/fee.rs:104-123 | accepts exactly the cuts above zero and up to 100% |
| PairContract.Pair.SetFeeOn | dex/pair/src/fee.rs:349-371 | a destination is added iff its address is not one yet, and taken out iff it was added with that token; the others keep their order |
| PairContract.Pair.AddTrustedSwapPair | dex/pair/src/fee.rs:54-72 | accepts exactly two different tokens that are not trusted in this order yet |
| PairContract.Pair.RemoveTrustedSwapPair | dex/pair/src/fee.rs:74-98 | fails iff neither order is trusted; exactly one order is taken out, so tokens trusted both ways stay swappable after one call |
| PairContract.Pair.AddInitialLiquidity | dex/pair/src/pair_actions/initial_liq.rs:29-92 | only for an empty pool, with more than the minimum of both tokens |
| PairContract.Pair.AddLiquidity | dex/pair/src/pair_actions/add_liq.rs:28-124 | takes the optimal amounts, mints the largest harmless liquidity, and succeeds iff the minimums are met and it is positive |
| PairContract.Pair.RemoveLiquidity | dex/pair/src/pair_actions/remove_liq.rs:29-104 | pays the floors of both shares iff they meet the minimums and the minimum liquidity stays |
| PairContract.Pair.RemoveLiquidityAndBurnToken | dex/pair/src/pair_actions/remove_liq.rs:106-158 | the floors of both shares are taken out, swapped through the remaining reserves and burned; everything that left is what was removed, and no one is diluted |
| PairContract.Pair.SwapTokensFixedInput | dex/pair/src/pair_actions/swap.rs:96-164 | pays the price, withholds the floor of the special fee and sends the collector at least its cut of it; never fails the product check, and accounts for every token: reserves, payout, fee destinations and remainder |
| PairContract.Pair.SwapTokensFixedOutput | dex/pair/src/pair_actions/swap.rs:168-231 | charges the input asked for, never more than was paid, with the same guarantees |
| PairContract.Pair.Settle | dex/pair/src/pair_actions/swap.rs:233-298 | the floor of the special fee is withheld from the reserves; the input ends up in them, with the fee's destinations, or left over in the contract |
| PairContract.Pair.SwapNoFee | dex/pair/src/pair_actions/swap.rs:37-92 | the whitelisted swap between pairs dilutes no one |
| PairContract.AddLiquidityThenRemove | dex/pair/src/liquidity_pool.rs:22-117 | the two endpoints called one after the other never return more of either token than was used |
| FarmTokens.SplitKeepsCompounded | farm-staking/farm-staking/src/token_attributes.rs:93-107 | splitting a token keeps its rate and amount, and loses at most one unit of compounded rewards |
| FarmTokens.MergeKeepsCompounded | farm-staking/farm-staking/src/token_attributes.rs:116-130 | merging tokens whose compounded rewards are within their positions leaves one of which it is so; CompoundedCounted says of which tokens it is |
| FarmTokens.CompoundedCounted | farm-staking/farm-staking/src/claim_stake_farm_rewards.rs:72-85 | over every run of entering, merging, compounding and claiming, compounded rewards stay within the position they are part of iff no claim with a smaller new value left less than they were |
| FarmTokens.StakedKept | farm-staking/farm-staking/src/token_attributes.rs:93-107 | compounding adds the reward to the position and to its compounded rewards, so that what was staked stays the same; claiming keeps what was compounded; a part has the floor of its share of it |
| FarmTokens.MergedCompounded | farm-staking/farm-staking/src/token_attributes.rs:116-130 | merging any number of positions neither makes nor loses compounded rewards |
| FarmTokens.AccrualSolvent | farm-staking/farm-staking/src/base_impl_wrapper.rs:110-135 | new base rewards raise the rate by no more than they pay for |
| FarmTokens.PaidSolvent | farm-staking/farm-staking/src/base_impl_wrapper.rs:47-59 | a position's base reward is covered by the unpaid base rewards, and paying it leaves all other positions covered |
| FarmTokens.EnteredSolvent | farm-staking/farm-staking/src/base_impl_wrapper.rs:151-163 | a position entered at the current rate is owed nothing |
| FarmTokens.PairCreatesNothing | farm-staking/farm-staking/src/token_attributes.rs:116-130 | merging two positions rounds the rate up: it never creates rewards, and gives up less than one unit of the rate per token |
| FarmTokens.MergingCreatesNothing | common/modules/utils/src/lib.rs:79-93 | merging any number of positions never creates rewards, and gives up less than one unit of the rate per token and merge |
| FarmTokens.MergedSolvent | common/modules/utils/src/lib.rs:60-93 | replacing tokens by the one they merge into keeps the farm solvent |
| FarmTokens.HandedStep | farm-staking/farm-staking/src/base_impl_wrapper.rs:196-217 | handing one token from its owner to another user moves exactly its amount between their totals |
| FarmBooks.AprBound | farm-staking/farm-staking/src/custom_rewards.rs:122-125 | per block, the bound is the floor of a year's part of the annual percentage of the amount; over a year of blocks it stays within the percentage |
| FarmBooks.BaseRewardIs | farm-staking/farm-staking/src/base_impl_wrapper.rs:47-59 | a position has earned the floor of its amount times the growth of the rate since it was entered |
| FarmBooks.NewRewards | farm-staking/farm-staking/src/base_impl_wrapper.rs:85-108 | the rewards of a settlement never exceed what is left of the capacity, and are none without stakes or blocks |
| FarmBooks.AccrualKeepsBooks | farm-staking/farm-staking/src/base_impl_wrapper.rs:110-135 | a settlement keeps accumulated rewards within capacity and the farm solvent |
| FarmBooks.RewardsArePayable | farm-staking/farm-staking/src/base_impl_wrapper.rs:137-149 | base plus boosted rewards of any position are in the reserve |
| FarmBooks.ClaimKeepsBooks | farm-staking/farm-staking/src/claim_stake_farm_rewards.rs:59-112 | claiming, also with a new amount, keeps the farm solvent |
| FarmBooks.ExitKeepsBooks | common/modules/farm/farm_base_impl/src/exit_farm.rs:33-91 | exiting keeps the farm solvent |
| FarmBooks.EnterKeepsBooks | common/modules/farm/farm_base_impl/src/enter_farm.rs:33-85 | entering and merging keep the farm solvent |
| FarmBooks.CompoundKeepsBooks | common/modules/farm/farm_base_impl/src/compound_rewards.rs:36-103 | adding rewards to the position and the supply keeps the farm solvent |
| FarmBooks.MergeKeepsBooks | farm-staking/farm-staking/src/lib.rs:127-148 | merging positions keeps the farm solvent |
| FarmBooks.ReserveExact | farm-staking/farm-staking/src/claim_only_boosted_staking_rewards.rs:103-110 | over any run the reserve exceeds accumulated minus paid rewards by what the calls of claimBoostedRewards paid: it is exact iff every one of them paid nothing; payments never exceed accumulated rewards, nor these the capacity |
| FarmStaking.MergeAttributesFromPayments | common/modules/utils/src/lib.rs:79-93 | the loop merges each payment as the part of its token that was paid |
| FarmStaking.StakingFarm.MintPerBlockRewards | farm-staking/farm-staking/src/base_impl_wrapper.rs:85-108 | the smaller of the produced and the APR-bounded rewards of the blocks gone by, which count as settled; the bound of a block is the floor of its part of a year |
| FarmStaking.StakingFarm.TakeRewardSlice | energy-integration/farm-boosted-yields/src/lib.rs:74-94 | base and boosted parts add up, the boosted part being the floor of its percentage |
| FarmStaking.StakingFarm.GenerateAggregatedRewards | farm-staking/farm-staking/src/base_impl_wrapper.rs:110-135 | mints what is due within capacity, splits it, raises the rate by the floor, and keeps the books |
| FarmStaking.StakingFarm.IncreaseUserFarmPosition | farm-staking/farm-staking/src/base_impl_wrapper.rs:220-227 | a user's total still counts the tokens they own |
| FarmStaking.StakingFarm.DecreaseUserFarmPosition | farm-staking/farm-staking/src/base_impl_wrapper.rs:229-251 | also where the total is cleared instead of subtracted from |
| FarmStaking.StakingFarm.CheckAndUpdateUserFarmPosition | farm-staking/farm-staking/src/base_impl_wrapper.rs:196-217 | tokens of other owners brought by a user count for that user, and for no one else |
| FarmStaking.StakingFarm.TopUpRewards | farm-staking/farm-staking/src/custom_rewards.rs:38-46 | capacity grows by the payment |
| FarmStaking.StakingFarm.WithdrawRewards | farm-staking/farm-staking/src/custom_rewards.rs:50-76 | only capacity that is not accumulated after settling can be withdrawn |
| FarmStaking.StakingFarm.Settle | farm-staking/farm-staking/src/custom_rewards.rs:78-105 | settling keeps the books and leaves nothing due |
| FarmStaking.StakingFarm.SetPerBlockRewards | farm-staking/farm-staking/src/custom_rewards.rs:88-95 | blocks gone by are settled at the old rate |
| FarmStaking.StakingFarm.SetMaxApr | farm-staking/farm-staking/src/custom_rewards.rs:98-105 | blocks gone by are settled at the old bound |
| FarmStaking.StakingFarm.SetBoostedYieldsRewardsPercentage | farm-staking/farm-staking/src/lib.rs:151-161 | blocks gone by are settled at the old split |
| FarmStaking.StakingFarm.EndProduceRewards | farm-staking/farm-staking/src/custom_rewards.rs:79-85 | blocks gone by are settled before production ends |
| FarmStaking.StakingFarm.StartProduceRewards | common/modules/farm/rewards/src/rewards.rs:9-21 | blocks before the start yield nothing |
| FarmStaking.StakingFarm.EnterFarmBase | common/modules/farm/farm_base_impl/src/enter_farm.rs:33-85 | the new token counts the stake and all tokens merged into it, for the user, at a rate that is owed no more than they were |
| FarmStaking.StakingFarm.StakeFarm | common/modules/farm/farm_base_impl/src/enter_farm.rs:33-85 | the same after boosted rewards, which are owed, were taken out of the stored reserve |
| FarmStaking.StakingFarm.ClaimRewardsCommon | farm-staking/farm-staking/src/claim_stake_farm_rewards.rs:72-85 | pays the floor of the amount times the growth of the rate since it was entered, and the boosted rewards; moves the position to the current rate; a new value replaces its amount in supply, user total and token |
| FarmStaking.StakingFarm.ClaimOnlyBoostedPayment | farm-staking/farm-staking/src/claim_only_boosted_staking_rewards.rs:103-110 | boosted rewards that are owed are in the reserve, and paying them keeps the books |
| FarmStaking.StakingFarm.CompoundRewards | farm-staking/farm-staking/src/compound_stake_farm_rewards.rs:34-56 | exactly the rewards earned, rounded down, become part of the position and the supply |
| FarmStaking.StakingFarm.MergeFarmTokens | farm-staking/farm-staking/src/lib.rs:111-148 | many tokens for one with their amount, owned by the user |
| FarmStaking.StakingFarm.UnstakeFarm | common/modules/farm/farm_base_impl/src/exit_farm.rs:33-91 | pays exactly the rewards earned, rounded down, and takes the position out; the unbond amount is the position, or the one given by the proxy |
| FarmStaking.StakingFarm.ClaimBoostedRewards | farm-staking/farm-staking/src/claim_only_boosted_staking_rewards.rs:32-62 | the books after the call: settled and paid, with the reserve as if nothing had been paid; an exact reserve stays exact iff nothing was paid |
| Milestones.UnlockedAndLater | legacy-contracts/factory-legacy/src/locked_asset.rs:72-91 | what is unlocked and what is still to come make up the schedule |
| Milestones.AllUnlockedInTheEnd | legacy-contracts/factory-legacy/src/locked_asset.rs:62-70 | once the last milestone has passed the whole amount is unlocked |
| Milestones.RoundedOnceBound | legacy-contracts/factory-legacy/src/locked_asset.rs:123-151 | no more units can be handed out, one per fraction, than there are fractions |
| Milestones.NextInOrder | legacy-contracts/factory-legacy/src/locked_asset.rs:136-149 | the milestone picked was not picked before, and outranks all that were not |
| Milestones.LargestFraction | legacy-contracts/factory-legacy/src/locked_asset.rs:134-142 | finds the last milestone with the largest remainder |
| Milestones.DistributeLeftover | legacy-contracts/factory-legacy/src/locked_asset.rs:123-151 | in place: terminates without underflow and the whole units add up to exactly 100,000; no milestone is raised more than once, and only ones with a fraction, iff there are at least as many fractions as units, and then those with the largest remainders are raised |
| Milestones.HandedToAnEmptyMilestone | legacy-contracts/factory-legacy/src/locked_asset.rs:123-151 | one milestone of zero percent receives every one of the 100,000 units, without having a fraction |
| Milestones.RescaledSum | legacy-contracts/factory-legacy/src/locked_asset.rs:105-117 | the rescaled shares miss the whole by less than one ten-thousandth of a unit each |
| Milestones.RescaledAreShares | legacy-contracts/factory-legacy/src/locked_asset.rs:105-117 | in ten-thousandths of a unit, each rescaled percent is the floor of its exact share of the whole |
| Milestones.FewLeftOver | legacy-contracts/factory-legacy/src/locked_asset.rs:105-131 | for at most 64 milestones of a schedule the units left over never outnumber the fractions |
| Milestones.RoundedShare | legacy-contracts/factory-legacy/src/locked_asset.rs:107-150 | each new percent differs from its exact share by less than one unit |
| Milestones.NonZeroKeepsSum | legacy-contracts/factory-legacy/src/locked_asset.rs:153-170 | dropping empty milestones keeps the sum |
| Milestones.GetUnlockPercent | legacy-contracts/factory-legacy/src/locked_asset.rs:72-91 | the percent unlocked never exceeds 100,000 |
| Milestones.GetNonZeroPercentMilestonesAsVec | legacy-contracts/factory-legacy/src/locked_asset.rs:153-170 | keeps exactly the milestones with whole units, in order |
| Milestones.CreateNewUnlockMilestones | legacy-contracts/factory-legacy/src/locked_asset.rs:93-121 | the new milestones sum to exactly 100,000: each is its exact share of what remains, rounded up for those with the largest remainders and down for the others; nothing if nothing remains; the result is a schedule again |
| BoostedFactors.WindowDetermined | energy-integration/farm-boosted-yields/src/boosted_yields_factors.rs:29-80 | history and week of the last update decide the window, so extra updates without a change cannot matter |
| BoostedFactors.PastIsSettled | energy-integration/farm-boosted-yields/src/boosted_yields_factors.rs:43-80 | a change leaves the weeks before it alone |
| BoostedFactors.WindowShifted | energy-integration/farm-boosted-yields/src/boosted_yields_factors.rs:62-79 | dropping the oldest weeks and repeating the latest factors moves the window along the history, also for jumps longer than the window |
| BoostedFactors.LatestReplaced | energy-integration/farm-boosted-yields/src/boosted_yields_factors.rs:54-60 | a second change in a week replaces the first |
| BoostedFactors.BoostedYieldsConfig.constructor | energy-integration/farm-boosted-yields/src/boosted_yields_factors.rs:29-41 | a new window answers with the initial factors for every week |
| BoostedFactors.BoostedYieldsConfig.Update | energy-integration/farm-boosted-yields/src/boosted_yields_factors.rs:43-80 | fails iff the week lies back; only a change enters the history, and the window answers as the history does |
| BoostedFactors.BoostedYieldsConfig.GetFactorsForWeek | energy-integration/farm-boosted-yields/src/boosted_yields_factors.rs:82-94 | answers exactly for the four weeks before the last update, with the factors last in force |
| BoostedFactors.BoostedYieldsConfig.GetLatestFactors | energy-integration/farm-boosted-yields/src/boosted_yields_factors.rs:96-98 | the factors in force now |
| BoostedPayouts.RewardWithinParts | energy-integration/farm-boosted-yields/src/lib.rs:235-253 | a user's reward, weighed by both constants, is within the energy part plus the farm part |
| BoostedPayouts.UserRewardIs | energy-integration/farm-boosted-yields/src/lib.rs:230-253 | the smaller of the cap for the farm amount and of both parts weighed by the constants, every division rounding down |
| BoostedPayouts.UserRewardDetermined | energy-integration/farm-boosted-yields/src/lib.rs:230-253 | this leaves exactly one reward for every claim |
| BoostedPayouts.PaidWithinParts | energy-integration/farm-boosted-yields/src/lib.rs:199-266 | the same over any number of claims, and both parts within their shares of the totals |
| BoostedPayouts.PaidWithinCollected | energy-integration/farm-boosted-yields/src/lib.rs:184-266 | for any claims whose energies and farm amounts add up to at most the week's totals, the rewards paid never exceed the amount collected |
| BoostedPayouts.ClaimCovered | energy-integration/farm-boosted-yields/src/lib.rs:235-256 | as long as the energies and farm amounts of a week's claims add up to at most its totals, what the week has not paid covers the next claim |
| BoostedPayouts.WeekClaimed | energy-integration/farm-boosted-yields/src/lib.rs:252-256 | a claim that is covered keeps every reward of the week in one place: waiting, remaining, paid or swept |
| BoostedPayouts.WeekOutlives | energy-integration/farm-boosted-yields/src/lib.rs:184-197 | later changes of factors do not change what a collected week pays |
| BoostedYields.FarmBoostedYields.Conserved | energy-integration/farm-boosted-yields/src/lib.rs:47-94 | over every run, all that was set aside was paid or is still held by the weekly counters or for the owner |
| BoostedYields.FarmBoostedYields.SetBoostedYieldsRewardsPercentage | farm-staking/farm-staking/src/lib.rs:151-158 | accepts exactly percentages up to 100% |
| BoostedYields.FarmBoostedYields.SetBoostedYieldsFactors | energy-integration/farm-boosted-yields/src/boosted_yields_factors.rs:105-138 | every accepted change enters the history; collected weeks are unaffected |
| BoostedYields.FarmBoostedYields.EnergyUpdated | energy-integration/common-modules/weekly-rewards-splitting/src/global_info.rs:15-88 | an update of the energies changes of every week's counters only the current total, and clears exactly the week that can no longer be claimed |
| BoostedYields.FarmBoostedYields.UpdateEnergyAndProgress | energy-integration/common-modules/weekly-rewards-splitting/src/update_claim_progress_energy.rs:36-64 | the user's energy enters the current total, and no week that can be claimed changes |
| BoostedYields.FarmBoostedYields.UpdateEnergyForUser | energy-integration/common-modules/weekly-rewards-splitting/src/update_claim_progress_energy.rs:20-34 | succeeds iff nothing is left to claim, and otherwise changes nothing |
| BoostedYields.FarmBoostedYields.ClearUserEnergyIfNeeded | energy-integration/farm-boosted-yields/src/lib.rs:124-135 | a user stops counting iff their position is below the minimum in force |
| BoostedYields.FarmBoostedYields.SetFarmSupplyForCurrentWeek | energy-integration/farm-boosted-yields/src/lib.rs:119-122 | only the current week's farm supply is written, so a past week's never changes |
| BoostedYields.FarmBoostedYields.TakeRewardSlice | energy-integration/farm-boosted-yields/src/lib.rs:74-94 | the boosted cut is set aside for the current week without loss, and raises what is owed by it |
| BoostedYields.FarmBoostedYields.CollectAndGetRewardsForWeek | energy-integration/common-modules/weekly-rewards-splitting/src/base_impl.rs:36-50 | the first claim moves exactly what was set aside for the week; later ones see the same total |
| BoostedYields.FarmBoostedYields.GetUserRewardsForWeek | energy-integration/farm-boosted-yields/src/lib.rs:199-266 | pays the smaller of the cap and of the weighed parts, both by floors over the week's totals, iff both minimums are met, out of what is owed; fails exactly outside the window of factors, where both constants are zero, and where the reward exceeds what the week has not paid |
| BoostedYields.EarnedIs | energy-integration/farm-boosted-yields/src/lib.rs:199-266 | a claim that succeeds is paid a reward iff it meets both minimums of a week that has something to share |
| BoostedYields.FarmBoostedYields.EarnedInIs | energy-integration/farm-boosted-yields/src/lib.rs:199-266 | so is every claim of a user, of whichever week |
| BoostedYields.FarmBoostedYields.PayClaim | energy-integration/farm-boosted-yields/src/lib.rs:235-263 | takes the reward out of the week's counter, and fails iff that does not cover it |
| BoostedYields.FarmBoostedYields.PayWeeks | energy-integration/common-modules/weekly-rewards-splitting/src/lib.rs:86-100 | the loop pays every week by itself: succeeds iff every one of them does, and pays their sum |
| BoostedYields.FarmBoostedYields.ClaimBoostedYieldsRewards | energy-integration/farm-boosted-yields/src/lib.rs:96-117 | pays exactly what the weeks not claimed yet, at most four, each with the energy of that week, owe the user, each by the floors of its own totals and factors; succeeds iff every week can pay, and otherwise leaves everything as it was; nothing without a configuration |
| BoostedYields.FarmBoostedYields.UserSucceeds | energy-integration/farm-boosted-yields/src/lib.rs:199-256 | where the user's farm amount is left in the supply of the week, the claim fails iff both constants are zero: their energy is always left in its total |
| BoostedYields.FittingSucceeds | energy-integration/farm-boosted-yields/src/lib.rs:199-256 | a claim within the week's totals fails iff it meets the minimums of a week with rewards while both constants are zero |
| BoostedYields.FarmBoostedYields.CollectUndistributedBoostedRewards | energy-integration/farm-boosted-yields/src/lib.rs:47-72 | sweeps exactly the remainders of weeks that can no longer be claimed, once; a swept week is left with nothing iff it was claimed from or nothing was set aside for it |
| FarmAmounts.HeldReplaced | energy-integration/common-modules/weekly-rewards-splitting/src/lib.rs:102-110 | claiming takes a user's position out of what can still be claimed with for a past week |
| FarmAmounts.HeldWithinSupply | energy-integration/farm-boosted-yields/src/lib.rs:119-122 | what all users can claim with is never more than the supply of the moment, so a week ends within its supply |
| FarmAmounts.WeekEndsWithin | energy-integration/farm-boosted-yields/src/lib.rs:119-122 | the week that ends joins those whose claims are within their supply |
| FarmAmounts.ClaimedWithin | energy-integration/farm-boosted-yields/src/lib.rs:96-117 | what was claimed with for a past week, and what still can be, stays within its supply |
| FarmAmounts.MovedWithin | farm-staking/farm-staking/src/base_impl_wrapper.rs:196-251 | positions that move to a user who has nothing left to claim leave every past week within its supply |
| FarmAmounts.FirstConfigured | energy-integration/farm-boosted-yields/src/boosted_yields_factors.rs:105-138 | at the first configuration exactly the past weeks that all who can claim them can claim within their supply join |
| BoostedStaking.BoostedFarm.ClaimsSucceed | energy-integration/farm-boosted-yields/src/lib.rs:96-117 | over every run: a claim of weeks from the first configuration on, or of earlier ones that were within their supply when it was stored, fails iff it meets the minimums of a week with rewards while both constants are zero; the counter of a week never falls short |
| BoostedStaking.BoostedFarm.ClaimBoosted | farm-staking/farm-staking/src/claim_only_boosted_staking_rewards.rs:103-110 | what up to four weeks pay a user is owed by the books of the farm, and nothing changes if one of them cannot pay |
| BoostedStaking.BoostedFarm.StakeFarm | farm-staking/farm-staking/src/stake_farm.rs:69-100 | boosted rewards for the old position are paid before it grows; the new supply is written, and the user's energy counted |
| BoostedStaking.BoostedFarm.ClaimRewards | farm-staking/farm-staking/src/claim_stake_farm_rewards.rs:59-112 | base and boosted rewards are paid for the old position; supply and energy are written for the new one |
| BoostedStaking.BoostedFarm.CompoundRewards | farm-staking/farm-staking/src/compound_stake_farm_rewards.rs:34-56 | base and boosted rewards become part of the position and the supply |
| BoostedStaking.BoostedFarm.UnstakeFarm | farm-staking/farm-staking/src/unstake_farm.rs:73-131 | rewards are paid, the unbond token can be exchanged after the minimum epochs, the supply is written, and a user below the minimum stops counting |
| BoostedStaking.BoostedFarm.MergeFarmTokens | farm-staking/farm-staking/src/lib.rs:111-148 | boosted rewards are paid before the merged position counts for the user; without a configuration nothing is paid and no claim is moved |
| BoostedStaking.BoostedFarm.ClaimBoostedRewards | farm-staking/farm-staking/src/claim_only_boosted_staking_rewards.rs:32-62 | succeeds iff the user has a position and every week can pay; pays their sum, which the reserve goes on counting |
| BoostedStaking.BoostedFarm.UpdateEnergyForUser | energy-integration/common-modules/weekly-rewards-splitting/src/update_claim_progress_energy.rs:20-34 | succeeds iff nothing is left to claim; farm and weeks stay in step |
| BoostedStaking.BoostedFarm.SetAside | farm-staking/farm-staking/src/base_impl_wrapper.rs:110-135 | the boosted cut that the books of the farm owe is what the current week sets aside, and no week that can be claimed changes |
| BoostedStaking.BoostedFarm.AdvanceWeek | energy-integration/common-modules/week-timekeeping/src/lib.rs:17-34 | the week that ends is within its energy and its supply |
| BoostedStaking.BoostedFarm.SetBoostedYieldsFactors | energy-integration/farm-boosted-yields/src/boosted_yields_factors.rs:105-138 | the first configuration decides, once, which earlier weeks are within their supply; later ones leave this alone |
| BoostedStaking.BoostedFarm.CollectUndistributedBoostedRewards | energy-integration/farm-boosted-yields/src/lib.rs:47-72 | the sweep takes exactly what remains of the weeks that can no longer be claimed, and leaves farm and weeks in step |
| BoostedStaking.BoostedFarm.WithdrawRewards | farm-staking/farm-staking/src/custom_rewards.rs:50-76 | settles farm and weeks alike; takes only what is not accumulated then |
| BoostedStaking.BoostedFarm.SetBoostedYieldsRewardsPercentage | farm-staking/farm-staking/src/lib.rs:151-161 | farm and weeks are settled at the old percentage, and both split at the new one from then on |
| BoostedStaking.BoostedFarm.SetPerBlockRewards | farm-staking/farm-staking/src/custom_rewards.rs:88-95 | farm and weeks are settled at the old rate |
| BoostedStaking.BoostedFarm.SetMaxApr | farm-staking/farm-staking/src/custom_rewards.rs:98-105 | farm and weeks are settled at the old bound |
| BoostedStaking.BoostedFarm.EndProduceRewards | farm-staking/farm-staking/src/custom_rewards.rs:79-85 | farm and weeks are settled before production ends |
| BoostedRuns.LostDeduction | farm-staking/farm-staking/src/claim_only_boosted_staking_rewards.rs:32-62 | a run in which a reward is claimed a week after it accrued, out of what its week owes, and is counted in the reserve ever after |
| BoostedRuns.ClaimBeyondSupply | energy-integration/farm-boosted-yields/src/lib.rs:96-107 | a run in which a claim of all of a week's energy fails: before the first configuration the user's position grew to three times the week's supply, while the week stayed unclaimed |
| BoostedRuns.RewardsStranded | energy-integration/farm-boosted-yields/src/lib.rs:47-72 | a run in which no one claims: the sweep finds nothing, and what was set aside stays in the week's own counter |
| WeeklyEnergyBooks.EnergyByExpiry | energy-integration/common-modules/weekly-rewards-splitting/src/locked_token_buckets.rs:86-117 | a user's energy in any week is the full weeks of their tokens still to come, and the surplus in the last one |
| WeeklyEnergyBooks.WeeksToFullExpire | energy-integration/common-modules/weekly-rewards-splitting/src/locked_token_buckets.rs:86-108 | the bucket found for a depleted entry is that of the week in which the energy expires, whenever it is looked up |
| WeeklyEnergyBooks.TotalReplaced | energy-integration/common-modules/weekly-rewards-splitting/src/global_info.rs:90-142 | a total over all users changes by what one user's progress contributes |
| WeeklyEnergyBooks.AllWeeksPass | energy-integration/common-modules/weekly-rewards-splitting/src/locked_token_buckets.rs:37-61 | from one week to the next all users together lose the weekly energy of the live tokens and the surplus of the bucket shifted out |
| WeeklyEnergyBooks.BucketShifted | energy-integration/common-modules/weekly-rewards-splitting/src/locked_token_buckets.rs:37-61 | taking the first bucket out brings total energy and total tokens to what all users have a week later; neither subtraction goes below zero |
| WeeklyEnergyBooks.UserUpdated | energy-integration/common-modules/weekly-rewards-splitting/src/global_info.rs:90-142 | with one user replaced in totals and buckets, the total energy is again the sum over all users, each depleted to the current week |
| WeeklyEnergyBooks.WeekEnds | energy-integration/common-modules/weekly-rewards-splitting/src/global_info.rs:52-88 | when a week ends, what all users can claim for it adds up to its total |
| WeeklyEnergyBooks.UserClaimed | energy-integration/common-modules/weekly-rewards-splitting/src/lib.rs:51-139 | what was claimed for a past week, and what still can be, stays within its total |
| WeeklyEnergyBooks.ClaimFits | energy-integration/common-modules/weekly-rewards-splitting/src/lib.rs:119-139 | what one user can still claim for a past week is left of its total |
| WeeklyRewards.ClaimWeeks | energy-integration/common-modules/weekly-rewards-splitting/src/lib.rs:82-104 | at most four weeks are claimed, each with the energy the user showed in it and the total of that week |
| WeeklyRewards.ClaimsCoverWeeks | energy-integration/common-modules/weekly-rewards-splitting/src/lib.rs:82-104 | exactly the weeks from the last claim on, of the four before the current one, are among the claims, once each and in order |
| WeeklyRewards.DepletedBucket | energy-integration/common-modules/weekly-rewards-splitting/src/locked_token_buckets.rs:63-84 | an old entry has a bucket iff its tokens still carry energy |
| WeeklyRewards.WeeklyRewardsSplitting.ShiftBucketsAndUpdateTokensEnergy | energy-integration/common-modules/weekly-rewards-splitting/src/locked_token_buckets.rs:37-61 | any number of weeks is caught up with bucket by bucket; the subtraction is never cut off at zero |
| WeeklyRewards.WeeklyRewardsSplitting.PerformWeeklyUpdate | energy-integration/common-modules/weekly-rewards-splitting/src/global_info.rs:52-88 | the totals move to the current week, for all users at once |
| WeeklyRewards.WeeklyRewardsSplitting.ReallocateBucketAfterEnergyUpdate | energy-integration/common-modules/weekly-rewards-splitting/src/locked_token_buckets.rs:63-84 | the user's tokens and surplus move from the bucket of the old entry to that of the new one, without underflow |
| WeeklyRewards.WeeklyRewardsSplitting.UpdateUserEnergyForCurrentWeek | energy-integration/common-modules/weekly-rewards-splitting/src/update_claim_progress_energy.rs:66-90 | the total energy of the current week stays the exact sum over all users |
| WeeklyRewards.WeeklyRewardsSplitting.UpdateEnergyAndProgress | energy-integration/common-modules/weekly-rewards-splitting/src/update_claim_progress_energy.rs:36-64 | the same, with the progress replaced, or cleared where no energy is left |
| WeeklyRewards.WeeklyRewardsSplitting.UpdateEnergyForUser | energy-integration/common-modules/weekly-rewards-splitting/src/update_claim_progress_energy.rs:20-34 | succeeds iff there is nothing left to claim |
| WeeklyRewards.WeeklyRewardsSplitting.ClearUserEnergy | energy-integration/common-modules/weekly-rewards-splitting/src/update_claim_progress_energy.rs:92-117 | a user whose position falls below the minimum no longer counts |
| WeeklyRewards.WeeklyRewardsSplitting.ClaimMulti | energy-integration/common-modules/weekly-rewards-splitting/src/lib.rs:51-117 | over every run, the energies that all users claim for a week add up to at most the total they are compared with |
| WeeklyRewards.WeeklyRewardsSplitting.TotalEnergyIsSum | energy-integration/common-modules/weekly-rewards-splitting/src/global_info.rs:90-142 | in every reachable state the total energy is the sum of all users' energies, each depleted to the week of the total |
| WeeklyRewards.WeeklyRewardsSplitting.UserClaimFits | energy-integration/common-modules/weekly-rewards-splitting/src/lib.rs:119-139 | in every reachable state the energy a user can still claim a week with is left of its total |
| Phases.PhasesAdvance | dex/price-discovery/src/phase.rs:29-76 | phases advance in order; redeeming starts with the end block and lasts; the linear penalty is non-decreasing between its minimum and maximum |
| Phases.LinearEnds | dex/price-discovery/src/phase.rs:47-63 | it starts at the minimum and ends at the maximum |
| Phases.PhaseOfBlock | dex/price-discovery/src/phase.rs:29-110 | by block: when deposits, withdrawals and redemptions are allowed, and what withdrawing costs: nothing, the floor of the line from minimum to maximum, or the fixed percentage |
| Phases.PenaltyBelowAll | dex/price-discovery/src/lib.rs:192-194 | no penalty takes everything |
| PriceDiscovery.PriceGuards | dex/price-discovery/src/lib.rs:140-145 | the two guards on the rounded price, as conditions on the balances themselves |
| PriceDiscovery.PaidWithinBalance | dex/price-discovery/src/lib.rs:262-286 | whatever was redeemed, the opposite balance covered it |
| PriceDiscovery.WithdrawKeepsBooks | dex/price-discovery/src/lib.rs:190-196 | each side's balance stays its redeem supply plus the penalties withheld |
| PriceDiscovery.RedeemKeepsBooks | dex/price-discovery/src/lib.rs:237-238 | every redemption is at the same rate, and all together within the opposite balance |
| PriceDiscovery.RedeemInParts | dex/price-discovery/src/lib.rs:262-286 | redeeming in parts never buys more than at once |
| PriceDiscovery.BoughtIs | dex/price-discovery/src/lib.rs:262-286 | the floor of the share of the opposite balance; all redeem tokens together buy all of it |
| PriceDiscovery.PenaltyOfIs | dex/price-discovery/src/lib.rs:190-196 | the penalty is the floor of the amount times the percentage of the block |
| PriceDiscovery.PriceDiscovery.AdvanceBlock | dex/price-discovery/src/phase.rs:29-76 | blocks only move the phase forward and leave the books alone |
| PriceDiscovery.PriceDiscovery.CalculatePrice | dex/price-discovery/src/lib.rs:289-297 | the price is the floor of the accepted per launched tokens at the precision; there is none iff nothing was launched |
| PriceDiscovery.PriceDiscovery.Deposit | dex/price-discovery/src/lib.rs:123-162 | succeeds iff the phase allows it and the price after it is zero or high enough, or the accepted token was paid |
| PriceDiscovery.PriceDiscovery.Withdraw | dex/price-discovery/src/lib.rs:169-217 | pays back the amount less the floor of the percentage of the block, always something; the penalty stays in the balance |
| PriceDiscovery.PriceDiscovery.Redeem | dex/price-discovery/src/lib.rs:228-258 | pays the floor of the share of the opposite balance, and a whole supply all of it; balances and supplies are frozen, and all redemptions stay within the balance |

## Left out

- LockedAssets.LockedAssetContracts.CancelTransfer: the admin permission is not modelled.
- LockedAssets.LockedAssetContracts.LockTokens: also stands for virtual locking, which differs in who may call it and where the tokens go.
- LockedAssets.LockedAssetContracts.ExtendLockPeriod: also stands for locking tokens that are locked already, which extends them in the same way.
- LockOptions.AddLockOptions: the limit of ten options is part of a valid table; the library sort is modelled by its result.
- BoostedStaking.BoostedFarm.ClaimRewards: farm tokens minted before user positions were counted, and their migration, are not modelled here or in the other endpoints.
- Safe price queries by timestamp or round offset, which only compute a window; observations decoded without an LP supply and the zero-supply fallback for them.
- Merging schedules of several legacy tokens, and everything else of the legacy contracts.
- Owner overrides of energy and legacy token migration, which replace the ledger by fiat.
- Token issuance, roles and transfers, proxies, callbacks, upgrades, events, error texts, permissions, whitelists and pause flags.
- Locking swap outputs through the locking module, and the initial liquidity adder of a pair.
- The dex farms, fees collector, routers, proxies and governance contracts.
