# Custodial staking ledger: a verified model

The service keeps three tables. A *balance* row per customer and asset has three buckets
(available, pending, staked) and a version. A *stake* row walks through PENDING, DELEGATING,
ACTIVE, UNSTAKING, WITHDRAWN, or FAILED, and has a version too. A *reward* row is recorded once
per stake and date. Any number of `CreateStake`, `Unstake` and `CreateOrUpdateBalance` calls and
any number of reward pollers change these rows at the same time. There are no transactions: a
stake write and the balance write that belongs to it are two separate "update where version is the
one I read" statements, and either of them can fail or be refused while others step in between.

The project models this protocol call by call and proves what survives every interleaving, every
failed call and every provider answer; it also proves exactly where the promises end.

## How it is built

Two layers, joined by proof.

**The protocol** (`protocol.dfy`). A state holds the tables, every operation with its program
counter and its in-memory copies, and the history the theorems speak of: the journal of committed
balance writes, which operation moved which stake into which state, the provider calls, and the
stakes and rewards for which a call that had to follow was given up. `Step` makes one repository or
provider call of one operation, with any answer. Every sequence of events is a run; `Run(events)`
is the state it reaches. Invariants are proved over `Step` and the theorems over `Run`:

| file | subject |
|---|---|
| `lifecycle.dfy`, `history.dfy` | stakes: versions, legal edges, idempotent requests |
| `phases.dfy`, `safety.dfy` | each move of a stake's amount at most once; solvency; moves that cannot be refused |
| `locking.dfy` | balance rows as a fold of atomic operations |
| `accounts.dfy` | the buckets as sums of what each hold contributes |
| `rollback.dfy` | the release after a provider failure |
| `agreement.dfy`, `cleanruns.dfy`, `faultless.dfy` | when buckets and stakes agree, and exactly when they do not |
| `rewards.dfy`, `earnings.dfy`, `runningtotals.dfy` | credits against recorded rewards, totals as sums, cumulative amounts |
| `replies.dfy` | what a reply tells its caller |
| `provenance.dfy`, `orders.dfy` | which provider answer each stored row goes back to; what the provider is asked for; what is tried after it |
| `failures.dfy` | what each operation does when a call fails or is refused |
| `limits.dfy` | concrete runs that break a promise, and the conditions that decide |

**The program** (`domain.dfy`, `calls.dfy`, `repositories.dfy`, `world.dfy`, `services.dfy`,
`poller.dfy`). `Balance` and `Stake` are objects changed in place; the repositories are objects that
own their tables; services and poller passes are methods with the branches and loops of the source.
Before each call `World.Interfere` lets every other operation take any number of steps, so two calls
of one method are never atomic. Every repository and provider call records itself, its arguments and
its answer, and the protocol advances only when exactly one call was made since the last step: the
next call of that operation, with that call's arguments and answer. The provider also keeps the
orders it was given. `World.Valid` says that tables and orders are those of a run. So each method
proves that it drove its own operation of that run from its first call to its last, and the theorems
about runs hold of the tables after any mixture of calls (`guarantees.dfy`).

When the world is *quiet* (nothing interferes, no call fails, the provider answers from a fixed
script) every service and poller method also equals a simple sequential function of the tables, and
what that function does to every column is proved status by status, as are repetition, draining and
reward collection (`sequential.dfy`, `passes.dfy`, `settling.dfy`, `fetching.dfy`, `polling.dfy`).

Amounts are integers in units of 10^-18, the scale of the columns. `wei.dfy` treats the
conversions at the provider's boundary separately.

## Results that differ from the documentation

- *Pending is in transit, staked is locked in active stakes* (`docs/DESIGN.md:171-174`). Even in
  runs where no call fails this is not always so. If a withdrawal overtakes the confirmation of the
  same stake, `CompleteUnstake` finds too little staked, is skipped for good, and the late
  confirmation stakes the amount of a WITHDRAWN stake. `Limits.RefusedCompletion` is such a run.
  `FaultlessRuns.AgreementIffNoShortfall` gives the exact condition: without repository failures
  after a hold, buckets and stakes agree at rest if and only if no withdrawal met the guard of
  `CompleteUnstake`. With failures, `CleanRuns.DriftIffSkipped` says which holds are off: exactly
  those for which a call was given up.
- *Version-based optimistic locking for all balance and stake mutations*, with conflicts retried
  (`docs/DECISIONS.md:50-54`). A refused write is never retried; it is returned or skipped. And the
  upsert behind a first deposit overwrites a row without looking at its version, so two concurrent
  first deposits can lose a hold taken between them: `Limits.LostHold`. A step keeps version equal
  to the number of committed writes if and only if it is not such an overwrite
  (`Limits.VersionsCountIff`), and an overwrite keeps the accounting if and only if it finds both
  buckets empty (`Limits.OverwriteAccountsIff`). The balance theorems are therefore stated for runs
  in which the upsert commits only while the row is absent (`NoOverwrite`); everything about stakes,
  phases, keys, replies and rewards holds of all runs.
- The documented flow returns the stake as PENDING (`docs/DESIGN.md:55`); the code returns it after
  the provider has accepted, as DELEGATING. The model follows the code.
- The domain allows UNSTAKING to FAILED, but no step of the system takes that edge:
  `History.UnstakedForever`.
- The reward summary query scans the NULL maximum of no rows into a string, so it fails for a stake
  without rewards; the poller then counts from zero, which is right. `RewardRepo.GetTotalByStakeID`
  models this.

## Model

| member | source | states |
|---|---|---|
| Domain.Balance.Hold | internal/domain/balance.go:41-52 | refuses a non-positive or uncovered amount and changes nothing, else moves it from available to pending |
| Domain.Balance.ConfirmStake | internal/domain/balance.go:55-66 | the same from pending to staked |
| Domain.Balance.ReleaseHold | internal/domain/balance.go:69-80 | the same from pending to available |
| Domain.Balance.CompleteUnstake | internal/domain/balance.go:83-94 | the same from staked to available |
| Domain.Balance.AddReward | internal/domain/balance.go:97-104 | refuses a non-positive amount, else adds it to available and touches nothing else |
| Domain.NewStake | internal/domain/stake.go:39-56 | a PENDING stake of version 1 exactly when the amount is positive |
| Domain.Stake.Delegate | internal/domain/stake.go:60-69 | succeeds exactly on the legal edge from PENDING, fixing validator and provider reference |
| Domain.Stake.Activate | internal/domain/stake.go:73-80 | succeeds exactly on the legal edge from DELEGATING |
| Domain.Stake.Unstake | internal/domain/stake.go:84-91 | succeeds exactly on the legal edge from ACTIVE |
| Domain.Stake.Withdraw | internal/domain/stake.go:95-102 | succeeds exactly on the legal edge from UNSTAKING |
| Domain.Stake.Fail | internal/domain/stake.go:105-118 | succeeds exactly from a non-terminal state and records the reason |
| Repositories.BalanceRepo.GetByCustomerAndAsset | internal/adapter/postgres/balance_repo.go:27-39 | a fresh copy of the stored row, not found exactly when absent, or a fault |
| Repositories.BalanceRepo.Update | internal/adapter/postgres/balance_repo.go:67-85 | writes the row only over version - 1 and within the CHECK constraint; refused with the lock's error for another version; every error leaves the table alone |
| Repositories.BalanceRepo.Upsert | internal/adapter/postgres/balance_repo.go:53-65 | inserts or overwrites, whatever version is stored |
| Repositories.StakeRepo.Create | internal/adapter/postgres/stake_repo.go:27-42 | inserts only under a new id and a free key |
| Repositories.StakeRepo.GetByIdempotencyKey | internal/adapter/postgres/stake_repo.go:55-64 | finds a stake exactly when the key is stored; not found is no error |
| Repositories.StakeRepo.Update | internal/adapter/postgres/stake_repo.go:91-110 | compare and set on the version; owner, amount, key and creation time are never written |
| Repositories.StakeRepo.SelectByState | queries/stakes.sql:34-39 | distinct stakes in the state, oldest first, up to the limit, none older left out |
| Repositories.StakeRepo.ListByState | internal/adapter/postgres/stake_repo.go:112-121 | the same listing as distinct fresh objects holding the stored rows |
| Repositories.RewardRepo.Create | internal/adapter/postgres/reward_repo.go:26-37 | appends unless the stake has a reward of that date |
| Repositories.RewardRepo.GetTotalByStakeID | queries/rewards.sql:12-18 | the sum of the amounts of the stake's own rows and of no others; without faults it fails exactly when there are none |
| Services.CreateStake | internal/service/staking_service.go:48-137 | under any interference, one Create operation of a run carried to the reply it returns; quiet, exactly the sequential placement, and the provider is ordered this stake's asset and amount once if the request got that far, else nothing |
| Services.CheckKey | internal/service/staking_service.go:50-58 | ends with the stored stake or the lookup error, and goes on only for a new key |
| Services.HoldFunds | internal/service/staking_service.go:72-84 | ends with the recorded error, or leaves the operation holding exactly the row it has just written |
| Services.RollBack | internal/service/staking_service.go:97-114 | marks the stake FAILED, then attempts the release from the held copy whether or not marking succeeded |
| Services.PlaceStake | internal/service/staking_service.go:87-124 | insert, order the amount from the provider, then delegate or roll back; a failed insert keeps the hold |
| Services.Delegate | internal/service/staking_service.go:117-124 | the stake becomes DELEGATING with the provider's validator and reference, each in its own column, or the write error is returned |
| Services.Unstake | internal/service/staking_service.go:140-172 | under any interference, one Unstake operation of a run carried to its reply; quiet, the provider is asked once with an ACTIVE stake's reference, its refusal leaves every table as it was and fails the request, its consent stores UNSTAKING, and any other stake is not touched |
| Services.CreateOrUpdateBalance | internal/service/balance_service.go:36-63 | under any interference, one SetBalance operation of a run carried to its outcome; quiet, it seeds or resets available and nothing else |
| Sequential.PlacedMoves | internal/service/staking_service.go:60-137 | a quiet request moves its amount from available to pending if accepted, and leaves every bucket as it was in every other case |
| Sequential.AcceptedPlacement | internal/service/staking_service.go:117-136 | every column of an accepted stake: DELEGATING, the provider's reference and validator, version 2; and of its balance |
| Sequential.RefusedPlacement | internal/service/staking_service.go:97-114 | a refused request leaves a FAILED stake of version 2 with the provider's reason, and the buckets as they were at version v + 2 |
| Sequential.TurnedAwayPlacement | internal/service/staking_service.go:60-84 | which requests are turned away with which error, exactly, and that they change nothing |
| Sequential.KnownPlacement | internal/service/staking_service.go:50-58 | a known key is answered with its stake and changes nothing, whatever else the request says |
| Sequential.DepositedMeans | internal/service/balance_service.go:36-63 | a deposit seeds an absent row or sets available in the stored one, keeping pending and staked; a negative one is refused; no other row changes |
| Sequential.PlacedTwice | internal/service/staking_service.go:50-58 | the same request again under its key returns the same stake and changes nothing, whatever the provider would say |
| Sequential.UnstakedTwice | internal/service/staking_service.go:146-150 | a second Unstake returns what the first did and changes nothing |
| Guarantees.BalancesSafe | internal/adapter/postgres/balance_repo.go:67-85 | every stored balance is non-negative, solvent, conserved, and its version counts its writes |
| Guarantees.StakesSafe | internal/adapter/postgres/stake_repo.go:91-110 | every stored stake is in version lockstep, was held once and moved at most once per phase |
| Guarantees.RepliesSafe | internal/service/staking_service.go:48-172 | every reply given so far is honoured by the tables as they stand |
| Guarantees.AnswersSafe | internal/service/staking_service.go:92-124 | every stored stake carries the provider's words, and each of its moves past PENDING the answer that called for it |
| Guarantees.OrdersSafe | internal/service/staking_service.go:92-96 | every order given to the provider fits a stored stake: asset and amount, or reference |
| Guarantees.OrderedOnce | internal/service/staking_service.go:92-96 | the provider is ordered to stake at most once per stake and per non-empty key |
| Lifecycle.StakesOk | internal/domain/stake.go:60-118 | in every run stored stakes are in version lockstep and every in-flight copy is stale or exact |
| Lifecycle.StakeStep | internal/adapter/postgres/stake_repo.go:91-110 | one step leaves each row alone or takes it along one legal edge with its identity kept |
| History.StakeHistory | internal/domain/stake.go:60-118 | the seven (state, version) pairs; identity never changes, terminal rows never change, the provider reference is fixed once set |
| History.UnstakedForever | internal/domain/stake.go:84-113 | no run leads from UNSTAKING or WITHDRAWN anywhere but WITHDRAWN |
| History.UnstakeIdempotent | internal/service/staking_service.go:140-164 | a later Unstake of an unstaked stake returns it, never calls the provider and never writes, whatever else happens |
| History.OncePerKey | internal/service/staking_service.go:50-96 | at most one stake and at most one provider.Stake call per non-empty key, over every run |
| History.RepeatIsInert | internal/service/staking_service.go:50-58 | a request that finds its key returns the stored stake and has no effect, whatever else happens |
| Replies.RepliesHonoured | internal/service/staking_service.go:48-172 | a returned position is a stored stake's earlier row, its own or its key's; a request turned away left neither stake nor hold |
| Provenance.EveryMoveWasAnswered | internal/worker/reward_poller.go:82-148 | in every run a delegated stake carries the validator and reference of its own acceptance; ACTIVE, FAILED from DELEGATING and WITHDRAWN only after the provider reported just that of it, UNSTAKING only after it agreed |
| Orders.OrdersAreExact | internal/service/staking_service.go:92-96 | in every run each order to stake names a stored stake with its asset and amount, each order to unstake the reference of a stake that is or has been ACTIVE |
| Orders.NothingLeftUntried | internal/service/staking_service.go:97-111 | in every run a request that ends with the provider's error has tried the release, and a poller that moved a stake or recorded a reward has turned to the balance |
| Failures.CreateFault | internal/service/staking_service.go:72-124 | a fault ends the request with the error and writes nothing; a failed marking still goes on to the release |
| Failures.UnstakeFault | internal/service/staking_service.go:141-164 | a fault ends the request with the error and writes nothing |
| Failures.ReconcileFault | internal/worker/reward_poller.go:82-116 | a fault sends the poller to its next stake; once the stake has moved its balance is given up |
| Failures.CreditFault | internal/worker/reward_poller.go:233-269 | a failed total counts as zero; any other fault sends the poller to its next entry |
| Failures.StaleBalance | internal/adapter/postgres/balance_repo.go:67-85 | a balance write over another version writes nothing: holds and resets are refused, releases, moves and credits given up |
| Failures.StaleStake | internal/adapter/postgres/stake_repo.go:91-110 | a stake write over another version writes nothing: requests are refused, pollers leave stake and balance to the winner |
| Failures.Duplicates | migrations/000001_initial_schema.up.sql:26-50 | a stored key or reward date refuses the insert; the refused stake's hold is kept |
| Phases.PhasesOk | internal/worker/reward_poller.go:95-139 | the counts of committed moves fit the stake's state in every run, overwrites included |
| Safety.AtMostOnce | internal/worker/reward_poller.go:95-139 | each move of an amount at most once; never confirmed and released, never completed and released |
| Safety.ExactAccounting | internal/worker/reward_poller.go:89-198 | pending and staked are exactly the sums of the holds' contributions; no bucket is negative |
| Safety.FourContributions | internal/domain/balance.go:41-94 | each hold contributes (a,0), (0,a), (0,0) or (a,-a) |
| Safety.LiveCovered | internal/worker/reward_poller.go:95-116 | each live stake is covered by the contribution of its own hold |
| Safety.Solvency | internal/worker/reward_poller.go:95-198 | pending plus staked covers all DELEGATING, ACTIVE and UNSTAKING stakes in every reachable state |
| Safety.NeverRefused | internal/worker/reward_poller.go:102-112 | a poller that won its stake write always finds enough pending |
| Safety.NoVoidWrite | internal/worker/reward_poller.go:134-143 | a release write after a won FAILED write that commits really releases, although the release error is ignored |
| Safety.NoLostUpdate | internal/adapter/postgres/balance_repo.go:67-85 | the row is the fold of the committed operations, each guarded on the row it met, and its version is their number |
| Safety.Conservation | internal/service/balance_service.go:56-60 | the row's total is its seed plus resets plus credited rewards, whatever else is interleaved |
| Locking.LocksOk | queries/balances.sql:19-22 | every versioned write appends one atomic operation to the fold |
| Locking.VersionCountsWrites | queries/balances.sql:19-22 | replaying a lawful journal gives a version equal to its number of writes |
| Locking.TotalIsInflow | internal/domain/balance.go:41-104 | holds, confirmations, releases and completions move money only inside the row |
| Rollback.RollbackExact | internal/service/staking_service.go:77-111 | the release commits only if no other write did since the hold, and restores the buckets at version v + 2; else the hold stays in pending |
| Rollback.HeldCopyCarried | internal/service/staking_service.go:77-108 | the operation carries the row it wrote with the hold until the release, whatever others do |
| Agreement.DriftsHold | internal/worker/reward_poller.go:95-198 | in every reachable state exactly the given-up stakes have drifted, debts in flight excepted |
| CleanRuns.DriftIffSkipped | internal/service/staking_service.go:77-124 | at rest a hold's contribution is wrong for its stake's state if and only if a call was given up for it |
| CleanRuns.AgreementAtRest | docs/DESIGN.md:171-174 | at rest, with nothing given up, pending and staked are the sums over the stakes in their states |
| FaultlessRuns.AgreementIffNoShortfall | docs/DESIGN.md:171-174 | without repository failures after a hold, buckets agree with stakes at rest if and only if no CompleteUnstake was refused |
| FaultlessRuns.FaultlessRun | internal/worker/reward_poller.go:188-192 | the holds given up in such a run are exactly those of withdrawals that met the guard |
| Limits.RefusedCompletion | internal/worker/reward_poller.go:188-192 | a run without a single failed call whose staked bucket holds 10 with no stake at work |
| Limits.VersionsCountIff | queries/balances.sql:1-6 | a step keeps versions equal to write counts if and only if it is not an upsert that finds a row |
| Limits.OverwriteAccountsIff | queries/balances.sql:1-6 | an overwriting upsert keeps the accounting if and only if pending and staked are zero |
| Limits.LostHold | internal/service/balance_service.go:39-42 | two concurrent first deposits lose a hold taken between them |
| Rewards.RewardsHold | internal/worker/reward_poller.go:251-269 | each recorded reward belongs to one operation and is credited, owed, or given up, in every run |
| Rewards.CreditsHold | internal/worker/reward_poller.go:256-269 | what was credited to a row is the sum of its recorded rewards whose credit committed |
| Rewards.CreditedOncePerDate | migrations/000001_initial_schema.up.sql:50 | one reward and at most one credit per stake and date |
| Rewards.CreditedWithinRecorded | internal/worker/reward_poller.go:251-269 | credits never exceed recorded rewards, over any number of polls and pollers |
| Rewards.AllCreditedIff | internal/worker/reward_poller.go:257-268 | at rest credits equal recorded rewards if and only if no balance read or write after an insert failed |
| RunningTotals.CumulativeAmounts | internal/worker/reward_poller.go:233-244 | with a single poller the i-th reward carries the sum of its own stake's first i amounts, so cumulative amounts strictly increase |
| Earnings.TotalIsSum | queries/rewards.sql:12-18 | the total is the sum over the whole table of the amounts of that stake's rows |
| Poller.ConfirmOnBalance | internal/worker/reward_poller.go:102-116 | quiet, a covered amount leaves pending for staked; else, or on a fault, the stake is skipped for good |
| Poller.ReleaseOnBalance | internal/worker/reward_poller.go:135-143 | quiet, a covered amount leaves pending for available; the error of ReleaseHold is ignored |
| Poller.CompleteOnBalance | internal/worker/reward_poller.go:182-198 | quiet, a covered amount leaves staked for available; else, or on a fault, the stake is skipped for good |
| Poller.CheckDelegating | internal/worker/reward_poller.go:82-148 | one listed stake is one operation carried to its end; quiet, it is the specified settlement, and nothing at all unless the status is ACTIVE or FAILED |
| Poller.CheckUnstaking | internal/worker/reward_poller.go:161-205 | the same for an UNSTAKING stake, and nothing at all unless the status is WITHDRAWN |
| Poller.ReconcileDelegating | internal/worker/reward_poller.go:74-150 | every listed stake is one finished operation; quiet, the up to 100 oldest go where their statuses say and the undecided stay; without overwrites each account's pending pays exactly the amounts confirmed and failed |
| Poller.ReconcileUnstaking | internal/worker/reward_poller.go:153-207 | the same for UNSTAKING: exactly those reported WITHDRAWN are, and each account with enough staked gets exactly their amounts back |
| Poller.RecordEntry | internal/worker/reward_poller.go:226-274 | one entry is one operation carried to its end; quiet, it is the specified entry |
| Poller.StoreAndCredit | internal/worker/reward_poller.go:251-269 | only the insert that succeeds goes on to the balance |
| Poller.FetchRewards | internal/worker/reward_poller.go:210-277 | quiet, the pass equals the specified extension of rewards and balances over the up to 100 oldest ACTIVE stakes |
| Poller.Poll | internal/worker/reward_poller.go:67-71 | the three passes in turn, quiet or under interference |
| Settling.UndecidedStays | internal/worker/reward_poller.go:89-148 | a stake whose status does not end its wait keeps its row and its account keeps its buckets |
| Settling.ActiveSettles | internal/worker/reward_poller.go:90-116 | ACTIVE: the row, and the balance in both branches of the guard |
| Settling.FailedSettles | internal/worker/reward_poller.go:125-143 | FAILED: the row with the poller's reason, and the balance in both branches of the ignored guard |
| Settling.WithdrawnSettles | internal/worker/reward_poller.go:168-198 | WITHDRAWN: the row, and the balance in both branches of the guard |
| Settling.PassStakes | internal/worker/reward_poller.go:81-148 | every row after a quiet pass, listed or not, by the literal status reported |
| Settling.DelegatingPass | internal/worker/reward_poller.go:74-150 | in every run without overwrites a quiet pass moves, per account, exactly the listed amounts: confirmed from pending to staked, failed from pending to available |
| Settling.PendingCoversListed | internal/worker/reward_poller.go:102-112 | in every run without overwrites pending covers all listed delegations, so no guard of such a pass refuses |
| Settling.UnstakingPass | internal/worker/reward_poller.go:153-207 | a quiet pass pays each account that has them staked exactly the listed amounts reported WITHDRAWN |
| Passes.PassRemovesBatch | internal/worker/reward_poller.go:74-150 | a decisive pass removes exactly the listed min(100, n) stakes from its state, none younger than one it leaves |
| Polling.OtherStateKept | internal/worker/reward_poller.go:153-207 | a pass over one waiting state leaves the other state's stakes as they are |
| Polling.PollDrains | internal/worker/reward_poller.go:67-71 | a whole poll takes min(100, n) stakes out of a decided waiting state |
| Polling.PollsDrain | queries/stakes.sql:34-39 | ceil(n / 100) polls empty the state and no fewer do, for DELEGATING and for UNSTAKING |
| Fetching.FetchAdds | internal/worker/reward_poller.go:225-254 | each listed stake gains, per unseen date, the first positive parseable entry; no other stake gains any |
| Fetching.EntryMeans | internal/worker/reward_poller.go:226-269 | one entry, column by column: recorded exactly when date, amount and uniqueness allow, with its stake's sum as cumulative amount, and credited to its stake's account |
| Fetching.FetchCumulates | internal/worker/reward_poller.go:233-244 | a quiet pass keeps every cumulative amount the sum of its own stake's rewards so far |
| Fetching.FetchCredits | internal/worker/reward_poller.go:256-269 | available grows by exactly the recorded amounts and nothing else moves |
| Fetching.SecondRunChangesNothing | internal/worker/reward_poller.go:251-254 | a second pass over the same answers changes no table |
| Wei.WeiRoundTrip | internal/adapter/bitgo/client.go:176-189 | wei to decimal and back is the nearest hundred: within 50, exact if and only if 100 divides it |
| Wei.DecimalRoundTrip | internal/adapter/bitgo/client.go:176-189 | decimal to wei and back is exact for at most 16 decimals |
| Wei.UnitIsWei | internal/adapter/bitgo/client.go:177-180 | one unit is 10^18 wei, however many decimals it is written with |
| Wei.WeiIsUnit | internal/adapter/bitgo/client.go:183-189 | n times 10^18 wei are n units |
| Wei.TotalError | internal/adapter/bitgo/client.go:183-189 | n converted rewards sum to within 50 n wei of the provider's total |
| Wei.BoundMet | internal/adapter/bitgo/client.go:183-189 | that bound is reached |

## Left out

- HTTP, JSON and the status mapping of the BitGo client: network plumbing; the provider answers anything.
- The mock provider: an instance of that provider.
- gRPC handlers, validation, authorization, configuration, logging, audit publishing (its errors are discarded): no bearing on the ledger.
- Listings and summaries for customers: they only read.
- The ticker loop: a run is any finite sequence of steps.
- Errors that hide a committed write: an error means the table is as it was.
- Timestamps other than a stake's creation time, which orders the listings.
- UUIDs: an operation's index in the run is the id it draws, so ids are distinct; a balance row is named by customer and asset, so the row id that an overwriting upsert keeps is not modelled.
- Database arithmetic limits: NUMERIC(36, 18) overflow, rounding of more than 18 decimals, BIGINT overflow of versions.
- Text forms of amounts and dates: a request's amount and an entry's date are parsed or `None`.
- Creation order against creation time: `createdAt` is any integer, so ties and clock skew are allowed.
- The decimal library: its default division precision of 16 digits and rounding of halves away from zero are taken from its documentation; it is not part of this model.
- Services.CreateStake: away from quiet worlds its contract fixes the calls made, their order and the reply, not which of them fail.
- Listing stakes and fetching reward entries are reads outside the run: a listed stake or an entry enters it with what was read.
- Settling.UnstakingPass: assumes the account has the reported amounts staked; a withdrawal that overtakes its confirmation need not find them, see `Limits.RefusedCompletion`. `Settling.WithdrawnSettles` covers both branches of the guard.
- Poller.FetchRewards: under interference its contract says that the tables remain those of a run; that each entry is one finished operation is stated at `Poller.RecordEntry`.
