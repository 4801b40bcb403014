# GLIN chain pallets in Dafny

This project models the four runtime pallets at the core of the GLIN federated-learning chain:

- **task registry**: creators post training tasks with a reserved bounty, and providers join them;
- **provider staking**: GPU providers bond a stake, and root can slash it or adjust their reputation;
- **reward distribution**: coordinators open reward batches, allocate per-provider rewards, settle them from an escrow account after a fee, and providers claim what is pending;
- **testnet points**: activities earn points, which feed each account's statistics and a top-100 leaderboard.

Each pallet is a `class`. Its storage items are fields of type `map`, `set`, `seq` or `nat`, and each dispatchable is a `method` with `modifies this`. A method's contract gives:

- the exact `DispatchResult`: which error, in which order of checks;
- `unchanged(this)` on every error, matching FRAME's transactional rollback;
- the complete new storage on success.

The `Balances` pallet the pallets call through their `Currency` trait is a value (`Currency.Balances`). Each dispatchable that moves funds takes the balances in and returns them. The model proves that reserve, unreserve and transfer conserve total issuance, and that a reserved-balance slash burns exactly what it takes.

Model structure:

- `Frame`: `AccountId`, the hashes (an injective datatype), `Origin`, `DispatchResult`, and the saturating `u32`/`u128` arithmetic.
- `Sums`: finite sums over sets.
- `Currency`: the `Balances` value and its operations.
- `TaskRegistry`, `ProviderStaking`, `RewardDistribution`, `TestnetPoints`: one per pallet.
- `Leaderboard`: the points leaderboard's sort and edit, and the top-100 invariant.

Integer widths are explicit: counters saturate at `u32::MAX` and balances at `u128::MAX` exactly where the code uses `saturating_add`/`saturating_sub`/`saturating_mul`. The runtime's constants are Dafny constants with the runtime's values (`runtime/src/lib.rs:259-305`):

- minimum bounty 10 GLIN;
- minimum stake 1000 GLIN;
- a 10% slash;
- a 7-day unbonding period;
- a 2% platform fee;
- a 100-block settlement period;
- a 0.01 GLIN minimum reward.

The code keeps two escrow accounts, `py/tasks` for completed task bounties and `py/rewrd` for reward payouts, and so does the model.

Some invariants are kept by every dispatchable:

- **Task registry:** memberships exist only for stored tasks, and every task is well formed. Its provider set never exceeds its `max_providers`, a `Pending` task has no members, and a `Running` task has at least `min_providers`.
- **Provider staking:**
  - the provider count equals the number of registered providers and stays within 10000;
  - reputations stay at most 1000, and every hardware description stays valid;
  - each dispatchable states whether it keeps "every unbonding provider has a deadline" or (`update_status`) may break it.
- **Reward distribution:** entries exist only for existing batches and are keyed by their provider, and pending rewards and both counters stay within `u128`.
- **Testnet points:**
  - the points counters agree with each other;
  - verification flags mirror the verified set;
  - the participant count equals the number of accounts with a first activity;
  - the leaderboard is the sorted top 100 of the current points. This holds with the corrected eviction of the Findings section, not with the code's.

## Model

| member | source | states |
|---|---|---|
| Currency.Reserve | pallets/task-registry/src/lib.rs:199 | Reserving succeeds exactly when the free balance covers the amount; it moves the amount from free to reserved and leaves every other account alone |
| Currency.Unreserve | pallets/task-registry/src/lib.rs:277 | Unreserving moves min(amount, reserved) back to free, returns the part that could not be unreserved, and touches no other account |
| Currency.Transfer | pallets/reward-distribution/src/lib.rs:383-388 | A transfer fails exactly when a non-trivial transfer exceeds the source's free balance; otherwise it debits the source, credits the destination, and leaves reserves and third parties unchanged |
| Currency.SlashReserved | pallets/provider-staking/src/lib.rs:380 | A slash of reserved funds takes min(amount, reserved) from the account's reserve only |
| Currency.IssuanceAfterUpdate | pallets/provider-staking/src/lib.rs:380 | Replacing one account's data changes total issuance by exactly the difference in that account's holdings |
| Currency.ReserveConserves | pallets/task-registry/src/lib.rs:199 | A successful reserve leaves total issuance unchanged |
| Currency.UnreserveConserves | pallets/task-registry/src/lib.rs:277 | Unreserve leaves total issuance unchanged |
| Currency.TransferConserves | pallets/reward-distribution/src/lib.rs:331-336 | A successful transfer leaves total issuance unchanged |
| Currency.SlashReservedBurns | pallets/provider-staking/src/lib.rs:380 | Slashing takes at most the amount and at most the reserve, and total issuance drops by exactly what was taken |
| TaskRegistry.MoveBountyToEscrow | pallets/task-registry/src/lib.rs:312-316 | Unreserving the bounty and transferring it to the task escrow fails exactly when free plus unreservable funds fall short; on success the escrow gains the bounty and no other account changes |
| TaskRegistry.MoveBountyToEscrowConserves | pallets/task-registry/src/lib.rs:312-316 | Paying a bounty into escrow conserves total issuance |
| TaskRegistry.MembershipsAfterJoin | pallets/task-registry/src/lib.rs:340-348 | Joining adds exactly one new member to that task's provider set and changes no other task's set |
| TaskRegistry.JoinKeepsValid | pallets/task-registry/src/lib.rs:337-358 | A join that the guards admit, followed by the automatic move to Running once min_providers is reached, keeps every task's provider-count invariant |
| TaskRegistry.CreateTaskStorageAsWritten | pallets/task-registry/src/lib.rs:201-222 | The storage effect of create_task as written: the task is inserted under hash(creator, count) whether or not that id is taken, and the count saturates at u32::MAX |
| TaskRegistry.AsWrittenSecondTaskReplacesFirst | pallets/task-registry/src/lib.rs:201-222 | Once the count has saturated, a creator's second task is stored under the same id and silently replaces the first |
| TaskRegistry.TaskRegistry.constructor | pallets/task-registry/src/lib.rs:86-97 | Genesis: no tasks, a zero count, no memberships |
| TaskRegistry.TaskRegistry.CreateTask | pallets/task-registry/src/lib.rs:179-228 | The guards in the code's order (origin, minimum bounty, provider bounds, balance, name and IPFS lengths), plus the refusal of an id that is already taken; on success the task is Pending, the bounty is reserved, the count saturates, and no existing task changes |
| TaskRegistry.TaskRegistry.StartRecruiting | pallets/task-registry/src/lib.rs:237-256 | Only the creator may move a Pending task to Recruiting; other errors are TaskNotFound, NotTaskCreator and InvalidTaskStatus, and nothing else changes |
| TaskRegistry.TaskRegistry.CancelTask | pallets/task-registry/src/lib.rs:262-290 | The creator may cancel a Pending or Recruiting task; the task becomes Cancelled and its bounty is unreserved |
| TaskRegistry.TaskRegistry.CompleteTask | pallets/task-registry/src/lib.rs:297-322 | The creator may complete a Validating task; the bounty moves into the task escrow and the task is stamped Completed at the current block |
| TaskRegistry.CountJoined | pallets/task-registry/src/lib.rs:340-343 | Counting the stored memberships of a task yields the size of its provider set |
| TaskRegistry.TaskRegistry.JoinTask | pallets/task-registry/src/lib.rs:329-365 | A provider may join a Recruiting task it has not joined and that is not full; the provider set grows by one, and the task becomes Running once min_providers is reached |
| ProviderStaking.SlashAmount | pallets/provider-staking/src/lib.rs:374 | The slash is 10% of the stake rounded down, and never exceeds the stake |
| ProviderStaking.Slashed | pallets/provider-staking/src/lib.rs:372-392 | A slashed provider loses exactly the slash amount of stake and 100 reputation (saturating), is Suspended when the reputation falls below 200 or the stake below the minimum, and changes in no other field |
| ProviderStaking.SlashAtMinimumStake | pallets/provider-staking/src/lib.rs:372-392 | A fresh provider at the minimum stake drops to 900 GLIN and 400 reputation, and is suspended for falling below the minimum stake |
| ProviderStaking.ProviderStaking.constructor | pallets/provider-staking/src/lib.rs:107-124 | Genesis: no providers, a zero count, no slash history |
| ProviderStaking.ProviderStaking.RegisterProvider | pallets/provider-staking/src/lib.rs:208-260 | The guards in order (minimum stake, not registered, provider limit, non-zero VRAM, balance, GPU model length); on success the stake is reserved and the provider is Active with reputation 500, and the count rises by one |
| ProviderStaking.ProviderStaking.UpdateHardware | pallets/provider-staking/src/lib.rs:267-295 | A registered provider may replace its hardware description, re-validated; nothing else changes |
| ProviderStaking.ProviderStaking.StartUnbonding | pallets/provider-staking/src/lib.rs:303-325 | A provider not already unbonding enters Unbonding with a deadline 7 days ahead, saturating at u32::MAX |
| ProviderStaking.ProviderStaking.WithdrawStake | pallets/provider-staking/src/lib.rs:333-356 | Only an Unbonding provider past its deadline may withdraw; the stake is unreserved, the provider removed and the count decremented |
| ProviderStaking.ProviderStaking.SlashProvider | pallets/provider-staking/src/lib.rs:364-405 | Root slashes a registered provider: the reserved balance is slashed by the slash amount, the record becomes Slashed, and the history records what was actually taken |
| ProviderStaking.ProviderStaking.UpdateReputation | pallets/provider-staking/src/lib.rs:412-440 | Root sets a reputation of at most 1000 (larger values are refused with the code's InvalidHardwareSpec), suspending below 200 |
| ProviderStaking.ProviderStaking.UpdateStatus | pallets/provider-staking/src/lib.rs:445-465 | Root sets any status and refreshes last_active; it does not promise a deadline for an Unbonding status |
| ProviderStaking.ProviderStaking.IsProvider | pallets/provider-staking/src/lib.rs:473-475 | An account is a provider exactly when it has a stake |
| ProviderStaking.ProviderStaking.GetStake | pallets/provider-staking/src/lib.rs:478-480 | The stake is present exactly for registered providers and equals their record's stake |
| ProviderStaking.ProviderStaking.GetReputation | pallets/provider-staking/src/lib.rs:483-485 | The reputation is present exactly for registered providers and never exceeds 1000 |
| RewardDistribution.PermillFromRational | pallets/reward-distribution/src/lib.rs:482 | Permill::from_rational(p, q) is the per-million fraction p/q rounded down, and 1 when p reaches q |
| RewardDistribution.PermillMul | pallets/reward-distribution/src/lib.rs:483 | A Permill times a value is that fraction of the value rounded down, never more than the value |
| RewardDistribution.FeeOf | pallets/reward-distribution/src/lib.rs:325 | The 2% platform fee is the amount divided by 50, rounded down |
| RewardDistribution.FeeIsPlatformPermill | pallets/reward-distribution/src/lib.rs:325 | The fee agrees with Permill 20000 applied to the amount |
| RewardDistribution.NetOf | pallets/reward-distribution/src/lib.rs:326 | The net reward plus the fee is the gross amount, and the net is at least 98% of it |
| RewardDistribution.CalculateReward | pallets/reward-distribution/src/lib.rs:470-496 | The reward is zero when the total, the contribution, the quality or the hardware factor is zero, is bounded by bounty times hardware factor divided by 100, and never exceeds the bounty at factor 100 or less |
| RewardDistribution.QualityShare | pallets/reward-distribution/src/lib.rs:481-487 | The contribution share of the bounty, scaled by quality, never exceeds the bounty and is zero without gradients or without quality |
| RewardDistribution.QualityShareProportional | pallets/reward-distribution/src/lib.rs:481-487 | The share is at most the exact proportion bounty × gradients / total × quality / 1000, with gradients capped at the total and quality at 1000 |
| RewardDistribution.QualityShareWithinRounding | pallets/reward-distribution/src/lib.rs:481-487 | The share falls short of that exact proportion by less than two units plus one millionth of the bounty, which is what the three truncations lose |
| RewardDistribution.CalculateRewardProportional | pallets/reward-distribution/src/lib.rs:470-496 | The reward is at most bounty × gradients / total × quality / 1000 × hardware factor / 100, with the same caps |
| RewardDistribution.CalculateRewardWithinRounding | pallets/reward-distribution/src/lib.rs:470-496 | Unless bounty × hardware factor overflows u128, the reward falls short of that exact value only by the truncation of the final division and of the share, scaled by the factor |
| RewardDistribution.CalculateRewardMonotoneInGradients | pallets/reward-distribution/src/lib.rs:470-496 | More gradients never earn a smaller reward |
| RewardDistribution.CalculateRewardMonotoneInQuality | pallets/reward-distribution/src/lib.rs:470-496 | A higher quality score never earns a smaller reward |
| RewardDistribution.CalculateRewardMonotoneInHardware | pallets/reward-distribution/src/lib.rs:470-496 | A larger hardware multiplier never earns a smaller reward |
| RewardDistribution.FullContributionEarnsBounty | pallets/reward-distribution/src/lib.rs:470-496 | A provider that did all the work at full quality and factor 100 earns exactly the bounty |
| RewardDistribution.EntryError | pallets/reward-distribution/src/lib.rs:264-265 | An entry is accepted exactly when its amount reaches the minimum reward and its quality is at most 1000; a too-small amount is reported before a too-high quality |
| RewardDistribution.FirstInvalid | pallets/reward-distribution/src/lib.rs:263-266 | No error is reported exactly when every entry is individually valid |
| RewardDistribution.FirstInvalidAt | pallets/reward-distribution/src/lib.rs:263-266 | The error reported is that of the first invalid entry |
| RewardDistribution.SaturatingRewardSum | pallets/reward-distribution/src/lib.rs:266 | The running u128 total is the true sum capped at u128::MAX |
| RewardDistribution.Record | pallets/reward-distribution/src/lib.rs:269 | Recording a submission stores an entry for every provider in it and keeps every earlier entry's key |
| RewardDistribution.ProvidersOfSnoc | pallets/reward-distribution/src/lib.rs:269 | The providers of a submission are those of its prefix plus the last entry's provider |
| RewardDistribution.RecordKeepsOthers | pallets/reward-distribution/src/lib.rs:269 | An existing entry for a provider absent from the submission is left as it was |
| RewardDistribution.RecordLastWins | pallets/reward-distribution/src/lib.rs:269 | When a provider appears several times, its last entry is the one stored |
| RewardDistribution.RecordKeyedByProvider | pallets/reward-distribution/src/lib.rs:269 | Every stored entry is keyed by its own provider |
| RewardDistribution.Credit | pallets/reward-distribution/src/lib.rs:272-274 | Each provider's pending reward grows by the sum of all its entries in the submission, capped at u128::MAX |
| RewardDistribution.AcceptedWithinBounty | pallets/reward-distribution/src/lib.rs:283 | When the saturating total passes the bounty check, the true total of the rewards is within the bounty |
| RewardDistribution.Payout | pallets/reward-distribution/src/lib.rs:323-336 | One provider's payout succeeds exactly when the escrow's free balance covers the net reward, and then moves exactly that amount from the escrow to the provider |
| RewardDistribution.PayBatch | pallets/reward-distribution/src/lib.rs:318-351 | The settlement loop succeeds exactly when the escrow covers the batch's total net outflow; it then pays every provider its net, adds every fee and net to the counters, and reduces every pending reward by the gross amount |
| RewardDistribution.PayBatchSkippingFailures | pallets/reward-distribution/src/lib.rs:426-446 | The periodic payout loop pays each provider its net or nothing, pays all of them when the escrow covers the batch, and reduces every pending reward by the gross amount whether or not the payment happened |
| RewardDistribution.SettlementSplitsGross | pallets/reward-distribution/src/lib.rs:325-327 | Over a batch, the fees plus the net rewards add up to the gross allocated |
| RewardDistribution.SettledBatchBounded | pallets/reward-distribution/src/lib.rs:339-346 | After a settlement the pending rewards and the fee and distribution counters all remain within u128 |
| RewardDistribution.Settleable | pallets/reward-distribution/src/lib.rs:323-345 | Corrected (see Findings): a batch's entries cut down to what is still pending, so that each is at most the entry and at most the pending reward, and is the entry itself when the entry is fully pending |
| RewardDistribution.AsWrittenClaimThenSettlePaysTwice | pallets/reward-distribution/src/lib.rs:323-345 | As written, a provider that claims its pending reward and then sees the batch settled receives the pending reward plus the entry's net, and is left with nothing pending |
| RewardDistribution.SettlementCoveredByPending | pallets/reward-distribution/src/lib.rs:323-345 | Settling the cut-down entries never raises any account's free balance plus pending reward, and reduces pending rewards exactly as the code does |
| RewardDistribution.ClaimThenSettlePaysOnce | pallets/reward-distribution/src/lib.rs:378-391 | With the cut-down entries, a claim followed by a settlement pays the provider exactly its pending reward, once |
| RewardDistribution.Allocate | pallets/reward-distribution/src/lib.rs:263-280 | The submission loop refuses with the first invalid entry's error, and otherwise produces the saturating total, the recorded entries and the credited pending rewards |
| RewardDistribution.Sweep | pallets/reward-distribution/src/lib.rs:420-448 | The periodic sweep marks exactly the unsettled batches that are due as settled, counts them, and debits the pending rewards of exactly those batches. It pays each provider at most the nets of those batches, and exactly those nets when the escrow covers their total outflow |
| RewardDistribution.MarkSettledKeepsValid | pallets/reward-distribution/src/lib.rs:422-427 | Marking batches settled keeps the batch and entry invariants |
| RewardDistribution.SettleOneKeepsValid | pallets/reward-distribution/src/lib.rs:303-316 | Marking one batch settled keeps the batch and entry invariants |
| RewardDistribution.SubmitKeepsValid | pallets/reward-distribution/src/lib.rs:269 | Recording a submission keeps every entry keyed by its provider and attached to an existing batch |
| RewardDistribution.RewardDistribution.constructor | pallets/reward-distribution/src/lib.rs:94-136 | Genesis: empty storage and zero counters |
| RewardDistribution.RewardDistribution.Commit | pallets/reward-distribution/src/lib.rs:94-136 | Storage written from values that satisfy the pallet invariant keeps the invariant |
| RewardDistribution.RewardDistribution.CreateBatch | pallets/reward-distribution/src/lib.rs:210-240 | A signed coordinator creates a batch under hash(task, coordinator, block) unless that id exists; the batch is unsettled and nothing else changes |
| RewardDistribution.RewardDistribution.SubmitRewards | pallets/reward-distribution/src/lib.rs:247-290 | The guards in order (batch exists, unsettled, coordinator, at most 1000 entries, each entry valid, total within bounty); on success the entries are recorded and the pending rewards credited, and any failure rolls everything back |
| RewardDistribution.RewardDistribution.SettleBatch | pallets/reward-distribution/src/lib.rs:297-365 | Corrected (see Findings): root settles an unsettled batch once the settlement period has passed and the escrow covers the net outflow of its entries cut down to what is pending. Every provider receives that net, the counters grow by the fees and nets, pending rewards drop as in the code, and no account's free balance plus pending reward grows |
| RewardDistribution.RewardDistribution.ClaimRewards | pallets/reward-distribution/src/lib.rs:373-400 | A provider with pending rewards receives all of them from the escrow when the escrow can pay; the pending entry is removed and the distribution counter grows, saturating |
| RewardDistribution.RewardDistribution.PeriodicSettlement | pallets/reward-distribution/src/lib.rs:407-460 | Anyone may trigger the sweep once the settlement period has passed since the last one; it settles exactly the due batches, pays exactly their nets when the escrow covers their total outflow, and leaves the fee and distribution counters untouched |
| Leaderboard.InsertDesc | pallets/testnet-points/src/lib.rs:460 | Inserting into a board keeps its entries and adds exactly the new one |
| Leaderboard.InsertDescSorted | pallets/testnet-points/src/lib.rs:460 | Inserting into a board sorted by descending points keeps it sorted |
| Leaderboard.SortDesc | pallets/testnet-points/src/lib.rs:460 | Sorting by descending points is a permutation of the board |
| Leaderboard.SortDescSorted | pallets/testnet-points/src/lib.rs:460 | The sorted board is in descending order of points |
| Leaderboard.SortDescSameEntries | pallets/testnet-points/src/lib.rs:460 | Sorting neither adds nor drops an entry |
| Leaderboard.IndexOfUser | pallets/testnet-points/src/lib.rs:447 | The position search finds the first entry of the account, and None exactly when it has none |
| Leaderboard.FirstBelow | pallets/testnet-points/src/lib.rs:454 | The position search finds the first entry scoring strictly less than the points, and None when there is none |
| Leaderboard.UpdatedKeepsTop | pallets/testnet-points/src/lib.rs:444-462 | With the lowest entry displaced, a leaderboard that holds the 100 best current scores, sorted and without duplicates, still does after an account's points rise |
| Leaderboard.AsWrittenEvictsHigherEntry | pallets/testnet-points/src/lib.rs:453-456 | As written, a newcomer to a full board evicts the first lower entry, so an account with 49 points is dropped while one with 1 point stays |
| Leaderboard.CorrectedEvictsLowestEntry | pallets/testnet-points/src/lib.rs:453-456 | With the lowest entry displaced, the same newcomer evicts the 1-point entry and the 49-point entry stays |
| TestnetPoints.BasePoints | pallets/testnet-points/src/lib.rs:402-413 | Every activity earns between 10 and 1000 base points |
| TestnetPoints.Multiplier | pallets/testnet-points/src/lib.rs:416-437 | The multiplier is 10000 basis points plus every bonus that applies, capped at u32::MAX, and never below 10000 |
| TestnetPoints.CalculatePoints | pallets/testnet-points/src/lib.rs:401-441 | An activity earns at least its base points, and never more than u32::MAX / 10000 |
| TestnetPoints.PointsScaleWithBonus | pallets/testnet-points/src/lib.rs:401-441 | Without saturation, the points are the base scaled by (10000 + bonuses) / 10000, rounded down |
| TestnetPoints.FirstActivityEarnsBase | pallets/testnet-points/src/lib.rs:418-425 | The points are computed from the statistics before the first activity is stamped, so an account's first activity earns only its base points |
| TestnetPoints.AnyFaucetClaim | pallets/testnet-points/src/lib.rs:381-382 | The scan finds a faucet claim exactly when the log holds one |
| TestnetPoints.FindUser | pallets/testnet-points/src/lib.rs:447 | The scan returns the account's first position on the board, or None |
| TestnetPoints.EditBoard | pallets/testnet-points/src/lib.rs:445-457 | Corrected (see Findings): the edit before sorting refreshes the account's entry, appends while there is room, or replaces the lowest entry of a full board when the new score is higher |
| TestnetPoints.UpdateBoard | pallets/testnet-points/src/lib.rs:444-462 | Corrected (see Findings): update_leaderboard makes the corrected edit and then sorts by descending points |
| TestnetPoints.Bumped | pallets/testnet-points/src/lib.rs:264-282 | Recording adds the points to the account's statistics total and bumps exactly the counter its activity type selects (saturating at u32::MAX); it stamps the first activity once, the last activity every time, and keeps the verification flag |
| TestnetPoints.RecordKeepsValid | pallets/testnet-points/src/lib.rs:238-302 | Recording an admissible activity keeps the points, statistics, activity-log, participant-count and leaderboard invariants |
| TestnetPoints.RecordKeepsPoints | pallets/testnet-points/src/lib.rs:264-290 | Adding the same saturating award to the account's points, its statistics total and the grand total keeps them consistent |
| TestnetPoints.RecordKeepsStats | pallets/testnet-points/src/lib.rs:264-282 | Updated statistics that keep the verification flag keep the verified set mirrored |
| TestnetPoints.RecordKeepsActivities | pallets/testnet-points/src/lib.rs:251-261 | Appending a record with metadata of at most 256 bytes to a log with room keeps every log within its bounds |
| TestnetPoints.StampedParticipant | pallets/testnet-points/src/lib.rs:277-280 | Stamping a first activity makes the account a participant |
| TestnetPoints.RecordCountsParticipant | pallets/testnet-points/src/lib.rs:277-280 | The number of participants grows by one exactly on an account's first activity |
| TestnetPoints.VerifyKeepsValid | pallets/testnet-points/src/lib.rs:307-322 | Verifying an account keeps every ledger invariant |
| TestnetPoints.FaucetClaimRecorded | pallets/testnet-points/src/lib.rs:372-395 | After a faucet claim is recorded, the account's log holds a faucet claim |
| TestnetPoints.TestnetPoints.constructor | pallets/testnet-points/src/lib.rs:108-184 | Genesis: empty storage, no cutoff, an empty leaderboard |
| TestnetPoints.TestnetPoints.Commit | pallets/testnet-points/src/lib.rs:108-184 | Storage written from a valid ledger keeps the pallet invariant |
| TestnetPoints.TestnetPoints.Record | pallets/testnet-points/src/lib.rs:247-293 | The body of record_activity turns the storage into the specified ledger after recording |
| TestnetPoints.TestnetPoints.RecordActivity | pallets/testnet-points/src/lib.rs:238-302 | Root only; TooManyActivities when the metadata is over 256 bytes or the log is full, with nothing changed; otherwise the activity is recorded and the leaderboard refreshed with the corrected edit (see Findings) |
| TestnetPoints.TestnetPoints.VerifyUser | pallets/testnet-points/src/lib.rs:307-322 | Root only; AlreadyVerified for a verified account; otherwise the account joins the verified set and its statistics are flagged |
| TestnetPoints.TestnetPoints.RecordReferral | pallets/testnet-points/src/lib.rs:327-352 | Root only; InvalidReferral for a self-referral or an account already referred; otherwise the link is stored and the referrer earns a ReferralSuccess, all rolled back when the referrer's log is full |
| TestnetPoints.TestnetPoints.SetEarlyBirdCutoff | pallets/testnet-points/src/lib.rs:357-367 | Root only; sets the cutoff and nothing else |
| TestnetPoints.TestnetPoints.ClaimFaucet | pallets/testnet-points/src/lib.rs:372-395 | Root only; AlreadyClaimedFaucet when the log holds a faucet claim; otherwise a FaucetClaim is recorded, so a second claim is refused |

## Left out

- Events (`deposit_event`), weights, storage getters and call indices: they are not observable in storage.
- The node (`node/src`), RPC and chain specification: they run outside the runtime logic.
- Hashing: `T::Hashing::hash_of` is an injective datatype constructor (`Frame.Hash`). Real hash collisions are not modelled.
- `PalletId::into_account_truncating`: each escrow is an opaque `PalletAccount` with the code's identifier.
- The existential deposit and `ExistenceRequirement::KeepAlive`: a transfer fails only when the free balance is short, so an escrow may be emptied.
- Currency.Reserve: the error `pallet_balances` reports is collapsed into `InsufficientBalance`, without the existential-deposit and lock checks.
- RewardDistribution.PermillMul: `sp_arithmetic` rounds a `Permill` product to the nearest unit; the model rounds down. FeeOf, NetOf and CalculateReward inherit this. `Permill::from_rational` rounds down in the code as in the model.
- ProviderStaking.SlashAmount: `Percent` times a balance rounds to nearest in `sp_arithmetic`; the model rounds down.
- TaskRegistry.TaskRegistry.CompleteTask: requires that the caller is not the task escrow account. That account is derived from a `PalletId`, has no key and cannot sign.
- The block number and `T::Time::now()` are parameters (`now`). Block numbers are capped at `u32::MAX` where a deadline is computed.
- The testnet-points configuration constants (`MaxActivitiesPerUser` and the three multipliers) are a `Config` value fixed at construction, because the runtime does not configure this pallet.
- Leaderboard.SortDesc: Rust's stable `sort_by` is modelled as a stable insertion sort. The model proves the result sorted and a permutation, but does not state stability.
- The `Leaderboard::mutate` closure is modelled as read, edit and write of the board value.
- The `BoundedVec` bound of 100 on the leaderboard is not written separately: the edit appends only below 100 entries, so `try_push` never fails.
- The errors `ActivityNotAllowed` and `NotVerified` are declared but never raised, and the model does not raise them either.
- UserStats is the whole `UserStats` record. `VerifiedUsers` (a `bool` map with `ValueQuery`) is the set of accounts mapped to `true`.
- The provider-staking `SlashHistory` keeps the code's overwrite of a second slash in the same block.
- RewardDistribution.RewardDistribution.PeriodicSettlement: as in the code, it ignores the result of each transfer. It does not add fees or distributions to the counters, and it reduces pending rewards whether or not a payment happened. `PayBatchSkippingFailures` states what it does pay.
- RewardDistribution.RewardDistribution.PeriodicSettlement: keeps the code's payment of every entry's net whatever is still pending. The double payment of the Findings section is corrected only in SettleBatch, so the sweep can still pay out an award that was already claimed.
- TestnetPoints.TestnetPoints.RecordActivity: uses the corrected leaderboard eviction of the Findings section, and so do RecordReferral and ClaimFaucet through Record. The code's eviction of the first lower entry is modelled only in Leaderboard.AsWrittenEvictsHigherEntry.

## Findings

| source | as written | input that shows it | evidently intended | confidence | as-written member | corrected member |
|---|---|---|---|---|---|---|
| pallets/testnet-points/src/lib.rs:453-456 | On a full leaderboard, "replace lowest score if higher" replaces the first entry scoring below the newcomer. The board is sorted in descending order, so that is the highest such entry. | A full board where account i holds 100 - i points (i = 0..99), and a newcomer with 50 points. The 49-point entry is evicted and the 1-point entry stays. | Replace the lowest entry when the newcomer scores higher, so that the board keeps the top 100 | not executed | Leaderboard.AsWrittenEvictsHigherEntry | Leaderboard.UpdatedKeepsTop |
| pallets/reward-distribution/src/lib.rs:323-345 | `settle_batch` pays every entry's net reward whatever is still pending, then lowers the pending reward with a saturating subtraction. `claim_rewards` (lib.rs:378-391) pays out the same pending reward, so an award can leave the escrow twice. | A provider is allocated 100 GLIN and claims it. Root then settles the batch, and the provider receives another 98 GLIN. | Pay each award once: settle at most what is still pending | not executed | RewardDistribution.AsWrittenClaimThenSettlePaysTwice | RewardDistribution.ClaimThenSettlePaysOnce |
| pallets/task-registry/src/lib.rs:201-222 | The task id is hash(creator, TaskCount), and `TaskCount` saturates at `u32::MAX`. From then on all of a creator's new tasks share one id, and `Tasks::insert` overwrites the earlier task with its reserved bounty. The declared error `TaskAlreadyExists` is never raised. | TaskCount = u32::MAX, then the same creator creates two different tasks. The first task is replaced by the second. | Refuse an id that is already taken with `TaskAlreadyExists` | not executed | TaskRegistry.AsWrittenSecondTaskReplacesFirst | TaskRegistry.TaskRegistry.CreateTask |
