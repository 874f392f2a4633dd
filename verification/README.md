# Bifrost parachain: verified models

A Dafny model of four pallets of the Bifrost runtime, with proofs of what their state keeps over every run.

**bbBNC** (`BbBnc.dfy`, module `BbBncPallet`). Users lock vBNC in positions whose voting power decays week by week. One global
point and a map of slope changes stand for all positions; an index by end block drives automatic withdrawal; a
reward-per-token accumulator is paid from a pool account. The class `BbBnc` has the storage items as fields and one method per
call, hook and query. `Snapshot()` is the storage as a value, and `Inv` is what holds between calls: the lock ledger, the
summary, the histories, backing by free balances, and solvency of the pool. The steps of a run are the constructor, the calls
`CreateLock`, `IncreaseUnlockTime`, `IncreaseAmount`, `Withdraw`, `RedeemUnlock`, `GetRewards`, `NotifyRewards` and `SetConfig`,
the hook `OnInitialize`, `NewBlock`, and transfers elsewhere (`SendTokens`). Each requires `Valid()` and ensures it (a reward
round if it lists every currency that is being paid), so it holds in every state of every run; the other methods are the parts
they are made of. `Guarantees.dfy` says what that means.

- `Sums`, `Weeks`, `Curve`, `Lines`, `Voting`: the curve as a plain sum over positions, and as the line the week loops follow.
- `History`, `LockLedger`, `ExpiryIndex`, `Rewards`, `Solvency`, `Notify`, `EarlyRedeem`, `Tokens`: one part of the state each.
- `Invariants`, `Calls`, `State`, `LockCalls`, `RewardCalls`: the invariant and what each kind of call does to it.
- `Effects`: what the calls do and which are accepted, in amounts and blocks.
- `Headroom`: when the amounts of a call fit, on which the contracts of the calls say exactly when they succeed. `Payouts`:
  what the block hook does, as a row of withdrawals.
- `Forfeits`: what a withdrawal costs in rewards. `Witnesses`: runs from genesis in which conditional properties fail.

**channel-commission** (`ChannelCommission.dfy`). The commission of a period is cleared over the first blocks of the next one.
`Clearing` holds the arithmetic of a pass for fixed books, `ClearingCycle` the phases and the loops of the hook, `ChannelCalls`
what the calls do to books and pass, `CommissionPot` the solvency of the account that holds commission, and
`ChannelCommission` the pallet.

**buy-back** (`BuyBack.dfy`), **clouds-convert** (`Clouds.dfy`) and the **markup ledger** of bbBNC (`Markup.dfy`).

A call that fails leaves storage as it was: the methods keep a copy and put it back. Overflow checks of u128 and
i128 are written out. What other pallets decide (the farming gauge, the outcome of a swap, a quote, an issuance) is a parameter.

## What the proofs found

- A withdrawal zeroes the lock before the reward update. An early redemption so loses its owner what has accrued on the power of
  the position since the account was last credited, although the query for pending rewards still reports it; at the end of a
  lock nothing is lost (`Forfeits.WithdrawalForfeits`, in a run `Witnesses.RewardLost`).
- When more positions are due than one block may handle, the gauge refuses a payment, or amounts do not fit, the cursor moves
  past positions that stay listed (`BbBnc.AutoWithdraw`, in a run `Witnesses.LimitExceeded`), and no later step takes it back to
  them (`Guarantees.NeverBack`). It happens exactly then, and the condition is one on the state before the block.
- A reward round that leaves out a currency with a rate while the period gets longer can owe more than the pool holds; listing
  every paid currency is exactly what is needed (`Notify.NotifyExact`, in a run `Witnesses.CurrencyLeftOut`).
- A commission token shared by several vtokens is paid to Bifrost once per vtoken (`Clearing.PassConserves`, in numbers
  `Clearing.PaidPerVtoken`).
- A channel registered in the block after the one that pays Bifrost makes its hook pay the same commission again
  (`ChannelCommissionPallet.RegisterLate`; which blocks do so: `ChannelCalls.PaysAgain`). The pot stays solvent exactly if it
  holds that commission once more (`CommissionPot.RegisterAgainCovers`).
- A buy-back duration of one block, or one failed quote, stops buy-backs for good (`BuyBackPallet.OneBlockWindow`,
  `BuyBackPallet.FailedQuote`). Adding liquidity with a duration of one block never happens (`BuyBackPallet.LiquidityNever`), and
  one failed quote ends it for good as well (`BuyBackPallet.FailedLiquidityQuote`).

## Hypotheses

- bbBNC runs without markup; a checkpoint comes within 255 weeks of the last one (`CanCheckpoint`, and `WeekSteps` shows the
  bound is exact); the longest lock and a week are at most 254 weeks; the pool account signs no calls; a new reward round lists
  each currency once and names all that have a rate.
- channel-commission: every block's hook runs, with enough weight; the period has more blocks than there are channels plus one;
  mints name registered channels; for a vtoken with an issuance on record of which more is minted than redeemed, the new
  issuance holds the old one and the net mint; `Permill::from_rational_with_rounding`, a library function, is the exact floor
  of its fraction; once the first channel of a pass has been cleared, no share is set and no channel removed until the pass is
  over. The pot is solvent for tokens of one vtoken each, when recorded fees have reached it and a late registration that
  repeats a pass finds the commission in it once more.

## Model

| member | source | states |
|---|---|---|
| Guarantees.SummaryIsSum | pallets/bb-bnc/src/lib.rs:900-1086 | in every state between calls the last point has slope and bias equal to the sums over all positions at its block, its amount is the supply, and each slope change ahead is minus the slope of the positions that end there |
| Guarantees.BalancesWithinTotal | pallets/bb-bnc/src/lib.rs:1999-2064 | the voting powers of all accounts at any block add up to at most the total supply computed for it, and while nothing has ended they fall short by less than two units per position |
| Guarantees.LedgersAgree | pallets/bb-bnc/src/lib.rs:1088-1124 | the supply is the sum of all locks and of all account totals; an account total is the sum over its own positions |
| Guarantees.OnePartition | pallets/bb-bnc/src/lib.rs:110-161 | owners and position lists are one partition without duplicates, ids from the next one on are unused, and what nobody owns is empty |
| Guarantees.NobodyOverdrawn | pallets/bb-bnc/src/lib.rs:1748-1765 | an account always holds what it has locked, also right after an early-redeem fee |
| Guarantees.Horizon | pallets/bb-bnc/src/lib.rs:1824-1843 | a position that holds something ends on a positive week boundary at most the longest lock and a week ahead, which bounds its voting power |
| Guarantees.PoolSolvent | pallets/bb-bnc/src/incentive.rs:195-297 | for each currency the pool covers stored rewards, what has accrued since accounts were last credited, and the rest of the round |
| Guarantees.NeverBack | pallets/bb-bnc/src/lib.rs:606-620 | a block that automatic withdrawal has moved past stays behind the cursor through every later call and hook |
| Forfeits.ReportedIs | pallets/bb-bnc/src/lib.rs:860-896 | what the query for pending rewards reports, in closed form: no credit of a solvent pool saturates |
| Forfeits.StoredByWithdrawal | pallets/bb-bnc/src/lib.rs:1667-1696 | a withdrawal adds to the stored rewards the accrual on the power of the account without the position |
| Forfeits.WithdrawalForfeits | pallets/bb-bnc/src/lib.rs:1667-1696 | it stores less than the query reports by the accrual on the power of the position, to within one unit, and as much exactly if that accrual is within the rounding remainder; so always when the lock has ended |
| Witnesses.RewardLost | pallets/bb-bnc/src/lib.rs:1735-1746 | a run from genesis in which the query reports 2 and an early redemption then stores nothing |
| Witnesses.LimitExceeded | pallets/bb-bnc/src/lib.rs:524-622 | a run from genesis in which one position falls due, the limit is none, and the block hook moves past it |
| Witnesses.CurrencyLeftOut | pallets/bb-bnc/src/incentive.rs:266-297 | a run from genesis of two rounds, the second without the currency of the first: the pool owes 100 and holds 10 |
| Headroom.CreditWithinTotal | pallets/bb-bnc/src/lib.rs:1289-1302 | an account counts for at most the total, so its power fits if the total does |
| Headroom.PendingCovered | pallets/bb-bnc/src/incentive.rs:131-191 | the pool holds what an account has stored and would be credited now, so no credit overflows |
| Headroom.EmptyWeightFits | pallets/bb-bnc/src/lib.rs:1033-1053 | without a new lock the total weight always fits, so a withdrawal never fails for it |
| Headroom.WithdrawnFits | pallets/bb-bnc/src/lib.rs:539-573 | after a withdrawal the amounts of the next one in the block fit as well |
| Lines.RoomForChanges | pallets/bb-bnc/src/lib.rs:955-1074 | if the weights fit, so does every change of slope: none of its checks ever fires |
| Payouts.PaidOutMeaning | pallets/bb-bnc/src/lib.rs:539-590 | after a row of payments the positions in it were due and are gone, every other one is as it was, and so are all tokens |
| Payouts.DuePaid | pallets/bb-bnc/src/lib.rs:524-620 | a position that is due is paid if its payment goes through and the limit has not cut its list short, and otherwise stays as it is |
| Payouts.AdvanceEnds | pallets/bb-bnc/src/lib.rs:603-620 | at the end of the cursor loop nothing is missed exactly if everything due fits the limit and all payments go through |
| Effects.PositionPower | pallets/bb-bnc/src/lib.rs:1151-1201 | the voting power of a position from its amount and the blocks it has left: a quarter of the amount and the weight times the amount times its part of the longest lock, never more, and less only by rounding |
| Effects.TotalPower | pallets/bb-bnc/src/lib.rs:1999-2064 | the same for the total voting power, from the amounts of all locks and the blocks they have left |
| Effects.OnRecord | pallets/bb-bnc/src/lib.rs:1203-1271 | when a block ends the power of every position is on record for lookups in the past |
| Effects.CreateEffect | pallets/bb-bnc/src/lib.rs:1811-1863 | a new lock: its amount until the end of the week after the time asked for, totals and list of its owner, and nothing else |
| Effects.ExtendEffect | pallets/bb-bnc/src/lib.rs:1866-1924 | an extended lock: its end and nothing else |
| Effects.TopUpEffect | pallets/bb-bnc/src/lib.rs:1927-1950 | a lock that has been topped up: its amount and the totals, at the same end |
| Effects.WithdrawEffect | pallets/bb-bnc/src/lib.rs:1660-1712 | a position that has been paid out is gone, and what was in it is no longer locked |
| Effects.RedeemEffect | pallets/bb-bnc/src/lib.rs:1714-1746 | an early redemption moves its fee to the buy-back account: the amount times the square of the part of five years that is left, one year included, up to rounding, and all of it from five years on |
| Effects.CreateAccepted | pallets/bb-bnc/src/lib.rs:1811-1863 | a new lock is accepted exactly within its limits, at each of them too, and which error says what |
| Effects.ExtendAccepted | pallets/bb-bnc/src/lib.rs:1866-1924 | the same for an extension |
| Effects.TopUpAccepted | pallets/bb-bnc/src/lib.rs:1927-1950 | the same for a top-up |
| Effects.LeaveAccepted | pallets/bb-bnc/src/lib.rs:1735-1746 | the same for a withdrawal and an early redemption |
| Effects.EarnsShare | pallets/bb-bnc/src/incentive.rs:90-216 | a reward update credits an account that was paid up with its share, by voting power, of what the elapsed blocks of the round have paid out, up to rounding |
| Effects.UpdateEffect | pallets/bb-bnc/src/incentive.rs:195-216 | it leaves the account paid up, counts from the current block or the end of the round, and credits nobody else |
| Effects.ClaimEffect | pallets/bb-bnc/src/incentive.rs:225-263 | a claim moves what is stored after the update from the pool to the account, and clears it |
| Effects.NotifyEffect | pallets/bb-bnc/src/incentive.rs:266-297 | a round moves all its controller holds of a listed currency to the pool and spreads it, with what the running round has left, over the duration; other currencies keep their rates |
| Effects.RoundAccepted | pallets/bb-bnc/src/incentive.rs:266-297 | a round is started exactly if the amounts fit, it has a duration, and the controller can give what he holds of each listed currency |
| Weeks.WeekFloorIsDivision | pallets/bb-bnc/src/lib.rs:976-980 | dividing by a week and multiplying back rounds down to a week boundary |
| Curve.Decay | pallets/bb-bnc/src/lib.rs:991-1004 | within a week the total weight falls along its slope |
| Curve.SlopeAtBoundary | pallets/bb-bnc/src/lib.rs:1006-1009 | at a week boundary the slope loses exactly the locks that end there |
| Curve.BiasBounds | pallets/bb-bnc/src/lib.rs:913-953 | the weight of a lock is its amount times the blocks left over the longest lock, less than the blocks left below that |
| Lines.NextPointExact | pallets/bb-bnc/src/lib.rs:982-1017 | one step of the week loop lands on the exact line, does not overflow, and neither clamp changes a value |
| Lines.ExtrapolateExact | pallets/bb-bnc/src/lib.rs:2021-2049 | one step of the extrapolation is exact and does not overflow |
| Lines.CorrectionNonNeg | pallets/bb-bnc/src/lib.rs:1035-1052 | correcting the point for the lock that changes never goes below zero |
| Lines.ReplaceTracks | pallets/bb-bnc/src/lib.rs:1035-1074 | the corrected point and the moved slope changes stand for the new set of locks |
| Lines.LineOfWeekly | pallets/bb-bnc/src/lib.rs:2010-2064 | locks that end on week boundaries add up to a line that falls straight within each week |
| Invariants.CheckpointDone | pallets/bb-bnc/src/lib.rs:1033-1074 | after the global part of a checkpoint the summary stands for the new locks, in block order, and no earlier point is lost |
| Voting.PowerDecays | pallets/bb-bnc/src/lib.rs:1151-1201 | the power of a lock never grows with time |
| Voting.PowerBounds | pallets/bb-bnc/src/lib.rs:1151-1201 | the power of a lock in amounts and blocks, from both sides |
| Voting.SupplyBounds | pallets/bb-bnc/src/lib.rs:2010-2064 | the same for the total |
| Voting.PowersWithinSupply | pallets/bb-bnc/src/lib.rs:2055-2063 | rounding each position down loses nothing the total does not have; the gap is below two units per position |
| Voting.BalancesWithinSupply | pallets/bb-bnc/src/lib.rs:1289-1302 | the same account by account |
| BbBncPallet.BbBnc.WeightAt | pallets/bb-bnc/src/lib.rs:2010-2054 | the week loop returns the exact sum of weights at the block asked for; the cap of 255 steps never changes it; an earlier block is an error |
| BbBncPallet.BbBnc.SupplyAt | pallets/bb-bnc/src/lib.rs:2010-2064 | total voting power at any block from the last point on, as the sums over all positions give it |
| BbBncPallet.BbBnc.TotalSupply | pallets/bb-bnc/src/lib.rs:1999-2008 | total voting power at the block asked for, by default now, as the sums over all positions give it; none before the last point |
| BbBncPallet.BbBnc.WeekSteps | pallets/bb-bnc/src/lib.rs:975-1032 | the 255 steps reach the current block exactly when it is within 255 weeks of the last point's week; the history stays ordered and complete |
| BbBncPallet.BbBnc.FillHistory | pallets/bb-bnc/src/lib.rs:964-1033 | the same for the storage of the pallet, from the last point or from none |
| BbBncPallet.BbBnc.MoveSlopeChange | pallets/bb-bnc/src/lib.rs:955-1074 | the slope changes ahead move with the lock, and no others; an overflow exactly if one of the new ones does not fit |
| BbBncPallet.BbBnc.GlobalCheckpoint | pallets/bb-bnc/src/lib.rs:915-1074 | a checkpoint turns the summary of the old locks into the summary of the new ones at the current block, and overflows exactly if the weight with the new lock on top does not fit |
| BbBncPallet.BbBnc.RecordPoint | pallets/bb-bnc/src/lib.rs:1076-1083 | the position gets one more point, for its new lock at the current block |
| BbBncPallet.BbBnc.Checkpoint | pallets/bb-bnc/src/lib.rs:900-1086 | rewards settled, summary moved and point recorded; it fails exactly if total power, accrual or weight do not fit |
| History.EpochAtMeaning | pallets/bb-bnc/src/lib.rs:1981-1997 | the epoch a lookup has to find is the greatest whose block is at most the one asked for, or 0 |
| History.BracketsMid | pallets/bb-bnc/src/lib.rs:1217-1236 | a step of the bisection keeps the epoch bracketed and halves the distance |
| History.PastIsCurrent | pallets/bb-bnc/src/lib.rs:1203-1271 | at the end of a block looking it up and computing it now agree |
| History.PastPreserved | pallets/bb-bnc/src/lib.rs:1203-1271 | a later checkpoint does not change what a past block reads |
| Calls.PastAfterCheckpoint | pallets/bb-bnc/src/lib.rs:1076-1083 | every recorded power of the past is still found after a lock has been changed |
| RewardCalls.PositionOrdered | pallets/bb-bnc/src/lib.rs:1203-1271 | position histories are in block order, and a lookup of a block that has passed returns the power recorded at its end |
| RewardCalls.GlobalOrdered | pallets/bb-bnc/src/lib.rs:1011-1053 | the global history is in block order |
| BbBncPallet.BbBnc.UserEpochAt | pallets/bb-bnc/src/lib.rs:1214-1236 | 128 steps find the epoch, for u128 epochs |
| BbBncPallet.BbBnc.FindBlockEpoch | pallets/bb-bnc/src/lib.rs:1981-1997 | the same for the global history |
| BbBncPallet.BbBnc.AddPast | pallets/bb-bnc/src/lib.rs:1273-1287 | the loop over positions adds up their past powers, or fails exactly if one cannot be read or the sum does not fit |
| BbBncPallet.BbBnc.BalanceOfPositionAt | pallets/bb-bnc/src/lib.rs:1204-1271 | the power of a position at a past block is what it was at the end of that block, whatever happened to the lock since; when it cannot be read |
| RewardCalls.AccountPast | pallets/bb-bnc/src/lib.rs:1273-1287 | for a block that has passed an account's power is the sum of what was recorded then for the positions that are still its own |
| BbBncPallet.BbBnc.BalanceOfAt | pallets/bb-bnc/src/lib.rs:1273-1287 | the sum over an account's positions, which for a block that has passed is what they were worth at the end of it; when it cannot be read |
| BbBncPallet.BbBnc.BalanceOfPosition | pallets/bb-bnc/src/lib.rs:1151-1201 | the power of a position now, from its last point; an error exactly if the point cannot be read or the power does not fit |
| BbBncPallet.BbBnc.BalanceOfCurrentBlock | pallets/bb-bnc/src/lib.rs:1289-1302 | the sum over an account's positions; an error exactly if a point cannot be read or the sum does not fit |
| Invariants.CurrentIsPower | pallets/bb-bnc/src/lib.rs:1151-1201 | the last point gives exactly the power of the lock |
| Calls.BalanceIsPower | pallets/bb-bnc/src/lib.rs:1289-1302 | an account's balance is the sum of what its locks are worth |
| LockLedger.AddPositionSound | pallets/bb-bnc/src/lib.rs:114-133 | a new position keeps ledgers, ids and partition in agreement |
| LockLedger.DepositSound | pallets/bb-bnc/src/lib.rs:1095-1124 | so does a deposit |
| LockLedger.EmptySound | pallets/bb-bnc/src/lib.rs:1667-1682 | so does paying a position out |
| LockLedger.DisownSound | pallets/bb-bnc/src/lib.rs:136-160 | so does giving a position up |
| LockLedger.NoUnderflow | pallets/bb-bnc/src/lib.rs:1673-1681 | a lock is within the supply and its owner's total, so a withdrawal never underflows |
| BbBncPallet.BbBnc.CreatePosition | pallets/bb-bnc/src/lib.rs:114-133 | the next id goes to the account with an empty lock, or the account has its maximum and nothing changes |
| BbBncPallet.BbBnc.RemovePosition | pallets/bb-bnc/src/lib.rs:136-160 | owner, list and epoch of the position are gone, its lock is empty |
| BbBncPallet.BbBnc.AddToLock | pallets/bb-bnc/src/lib.rs:1095-1124 | supply, lock and account total grow by the value; which error comes first when something does not fit |
| BbBncPallet.BbBnc.DepositForInner | pallets/bb-bnc/src/lib.rs:1088-1148 | a deposit with its checkpoint keeps the invariant; refused exactly as stated, and otherwise it succeeds exactly if power, accrual and weight fit |
| BbBncPallet.BbBnc.ReleaseLock | pallets/bb-bnc/src/lib.rs:1667-1682 | lock, supply and account total lose the amount; never an underflow |
| BbBncPallet.BbBnc.PayFee | pallets/bb-bnc/src/lib.rs:1683-1694 | the fee, the rate times the amount rounded down, is paid to the buy-back account; it never fails for lack of funds, only if that account cannot hold more |
| BbBncPallet.BbBnc.WithdrawNoEnsure | pallets/bb-bnc/src/lib.rs:1660-1712 | a position is paid out and given up with the invariant kept, exactly if power and accrual fit, the fee can be received and the gauge accepts; otherwise nothing has changed |
| BbBncPallet.BbBnc.Withdraw | pallets/bb-bnc/src/lib.rs:1959-1969 | an ended position is paid out without fee; refusals in order, and otherwise success exactly if power and accrual fit and the gauge accepts |
| BbBncPallet.BbBnc.RedeemUnlock | pallets/bb-bnc/src/lib.rs:1735-1746 | a running position is paid out for the commission on its amount; refusals in order, and exactly when it succeeds otherwise |
| BbBncPallet.BbBnc.MoveEnd | pallets/bb-bnc/src/lib.rs:1905-1915 | the index entry moves and the deposit of nothing moves the end, exactly if the new list has room and the amounts fit |
| BbBncPallet.BbBnc.RealUnlockTime | pallets/bb-bnc/src/lib.rs:1824-1843 | the end is rounded up to a week and refused when too near or too far |
| BbBncPallet.BbBnc.CreateLock | pallets/bb-bnc/src/lib.rs:1811-1863 | a new lock, listed under its end; refusals in order, otherwise success exactly if the amounts fit and the gauge accepts; an error leaves everything as it was |
| BbBncPallet.BbBnc.IncreaseUnlockTime | pallets/bb-bnc/src/lib.rs:1866-1924 | a running lock ends later and is listed there; refusals in order, and exactly when it succeeds otherwise |
| BbBncPallet.BbBnc.IncreaseAmount | pallets/bb-bnc/src/lib.rs:1927-1950 | a running lock grows; refusals in order, and exactly when it succeeds otherwise |
| State.DepositInv | pallets/bb-bnc/src/lib.rs:1088-1148 | a deposit keeps the whole invariant |
| LockCalls.CreateInv | pallets/bb-bnc/src/lib.rs:114-133 | a new position keeps the whole invariant |
| LockCalls.WithdrawnInv | pallets/bb-bnc/src/lib.rs:1660-1712 | a withdrawal keeps the whole invariant |
| LockCalls.FeeCovered | pallets/bb-bnc/src/lib.rs:1679-1694 | what is still locked and the fee together are within the free balance |
| LockCalls.AdmittedWritable | pallets/bb-bnc/src/lib.rs:1816-1850 | a position just admitted is empty, so the check for an existing lock never fires |
| EarlyRedeem.CommissionValue | pallets/bb-bnc/src/lib.rs:1714-1731 | when the rate overflows, and its value otherwise |
| EarlyRedeem.CommissionMonotone | pallets/bb-bnc/src/lib.rs:1714-1731 | the rate grows with the blocks left and is at most one |
| EarlyRedeem.CommissionFull | pallets/bb-bnc/src/lib.rs:1714-1731 | the rate is one exactly if the blocks left and one year make five years |
| EarlyRedeem.CommissionSquare | pallets/bb-bnc/src/lib.rs:1714-1731 | the rate is the square of the part of five years, less than three units of the last decimal below |
| EarlyRedeem.FeeBound | pallets/bb-bnc/src/lib.rs:1683-1691 | the fee is at most the amount released |
| ExpiryIndex.CreateAgrees | pallets/bb-bnc/src/lib.rs:1768-1790 | recording a new lock keeps index and locks in agreement |
| ExpiryIndex.ExtendAgrees | pallets/bb-bnc/src/lib.rs:1905-1907 | moving a lock to its new end does too |
| ExpiryIndex.WithdrawAgrees | pallets/bb-bnc/src/lib.rs:1793-1803 | taking a withdrawn position off does too |
| ExpiryIndex.AutoWithdrawAgrees | pallets/bb-bnc/src/lib.rs:539-573 | a listed position ends where it is listed; paying it out while its list is worked off is harmless |
| ExpiryIndex.SweepAgrees | pallets/bb-bnc/src/lib.rs:593-601 | taking the handled positions off restores full agreement, also after failed payments and partial draining |
| ExpiryIndex.CursorForecast | pallets/bb-bnc/src/lib.rs:524-620 | the cursor misses nothing afterwards exactly if all entries due fit the limit and the payments go through for all of them that hold something |
| LockCalls.CreatedOnward | pallets/bb-bnc/src/lib.rs:1782-1787 | the cursor goes back only to ends that lie ahead |
| ExpiryIndex.NothingDue | pallets/bb-bnc/src/lib.rs:520-622 | then no position that holds something has ended |
| ExpiryIndex.RecordCursor | pallets/bb-bnc/src/lib.rs:1782-1787 | recording an end keeps the cursor a lower bound |
| BbBncPallet.BbBnc.RecordExpiring | pallets/bb-bnc/src/lib.rs:1768-1790 | the position is listed once under its end and the cursor is lowered to it; a full list is an error |
| BbBncPallet.BbBnc.RemoveExpiring | pallets/bb-bnc/src/lib.rs:1793-1803 | the position is off that list |
| BbBncPallet.BbBnc.PayOutExpired | pallets/bb-bnc/src/lib.rs:546-590 | one position is paid out, or holds nothing, or stays exactly if amounts do not fit or the gauge refuses; the branch for a missing owner is never taken |
| BbBncPallet.BbBnc.DrainList | pallets/bb-bnc/src/lib.rs:539-591 | which positions of one list are handled, within the limit |
| BbBncPallet.BbBnc.SweepList | pallets/bb-bnc/src/lib.rs:593-601 | the list is shorter by the positions handled; other lists are unchanged |
| BbBncPallet.BbBnc.DrainBlock | pallets/bb-bnc/src/lib.rs:533-608 | one block of the cursor loop |
| BbBncPallet.BbBnc.DrainDue | pallets/bb-bnc/src/lib.rs:529-608 | the cursor loop ends; entries handled and entries left make up the entries found |
| BbBncPallet.BbBnc.AutoWithdraw | pallets/bb-bnc/src/lib.rs:520-622 | a row of at most as many withdrawals as the limit; list by list and in order, entries stay exactly if their payment does not go through or the limit has been met; the cursor stops before the current block only at the limit, and misses nothing exactly if all that is due fits the limit, amounts fit and the gauge refuses none of it |
| BbBncPallet.BbBnc.RenewRound | pallets/bb-bnc/src/lib.rs:494-518 | the round that ends in this block is followed by the next one, or settled and not renewed if it cannot be funded |
| BbBncPallet.BbBnc.OnInitialize | pallets/bb-bnc/src/lib.rs:494-625 | the next round and automatic withdrawal: the hook keeps the invariant, whatever fails in it, with the same conditions on the state before it |
| Rewards.SettleThenAccrue | pallets/bb-bnc/src/incentive.rs:195-208 | accruing again in the block of a settlement adds nothing |
| Rewards.UpdateIdempotent | pallets/bb-bnc/src/incentive.rs:195-216 | two reward updates in one block are one |
| Rewards.FairShare | pallets/bb-bnc/src/incentive.rs:90-191 | an account that was paid up earns its share of what the elapsed blocks pay out: never more, and less only by two roundings |
| Solvency.SettleOwes | pallets/bb-bnc/src/incentive.rs:90-128 | accrual never raises the debt of the pool when voting powers add up to at most the total |
| Solvency.CreditOwes | pallets/bb-bnc/src/incentive.rs:131-216 | crediting an account rounds in favour of the pool |
| Solvency.UpdateSolvent | pallets/bb-bnc/src/incentive.rs:195-216 | a reward update keeps the pool solvent |
| Solvency.PowerChangeSolvent | pallets/bb-bnc/src/lib.rs:906-906 | after an update the voting power of the account may change at will, other powers may only shrink |
| Solvency.ClaimSolvent | pallets/bb-bnc/src/incentive.rs:234-256 | a pool that pays stored rewards stays solvent |
| Calls.CallSolvent | pallets/bb-bnc/src/lib.rs:900-906 | what a call does to rewards and powers keeps the pool solvent, though it credits in the middle of the change |
| Invariants.MidCallTotal | pallets/bb-bnc/src/lib.rs:1112-1132 | in the middle of a call the caller counts for at most his power before it |
| Notify.CheckedRate | pallets/bb-bnc/src/lib.rs:2123-2146 | the new rate; the balance check never fires when the pool holds the leftover |
| Notify.RateSpreads | pallets/bb-bnc/src/lib.rs:2123-2152 | a new rate spreads reward and leftover over the duration, less than one unit a block short |
| Notify.NotifySolvent | pallets/bb-bnc/src/incentive.rs:266-297 | starting a round keeps the pool solvent if every paid currency is listed or pays no longer |
| Notify.NotifyExact | pallets/bb-bnc/src/incentive.rs:266-297 | and only then |
| Notify.PreviewIsUpdate | pallets/bb-bnc/src/lib.rs:878-893 | the query reports exactly what an update would add |
| RewardCalls.ReportExact | pallets/bb-bnc/src/lib.rs:860-896 | the same for the storage of the pallet |
| RewardCalls.ClaimCovered | pallets/bb-bnc/src/incentive.rs:234-244 | the pool holds every stored reward and has nothing locked |
| RewardCalls.LeftoverCovered | pallets/bb-bnc/src/lib.rs:2125-2143 | the pool holds the leftover of a running round |
| RewardCalls.NewBlockInv | pallets/bb-bnc/src/incentive.rs:70-78 | time passing keeps the invariant |
| RewardCalls.UpdatedInv | pallets/bb-bnc/src/incentive.rs:195-216 | a reward update between calls keeps the invariant |
| RewardCalls.RoundInv | pallets/bb-bnc/src/incentive.rs:276-293 | starting a round with all paid currencies listed keeps the invariant |
| RewardCalls.RoundError | pallets/bb-bnc/src/lib.rs:2123-2163 | a round in a covered pool is refused exactly if one of its currencies is, and unless tokens of the controller are locked only by an overflow |
| BbBncPallet.BbBnc.AddIncrements | pallets/bb-bnc/src/incentive.rs:101-125 | reward per token of every currency with a rate; an error exactly if an increment does not fit |
| BbBncPallet.BbBnc.AddEarned | pallets/bb-bnc/src/incentive.rs:139-189 | earnings of every currency; an error exactly if one does not fit |
| BbBncPallet.BbBnc.CalculateRewardPerToken | pallets/bb-bnc/src/incentive.rs:90-128 | reward per token at the current block, or an overflow exactly if total power or an increment does not fit |
| BbBncPallet.BbBnc.EarnedBy | pallets/bb-bnc/src/incentive.rs:131-191 | stored rewards and what has accrued, with the second accrual adding nothing; exactly when it overflows |
| BbBncPallet.BbBnc.UpdateReward | pallets/bb-bnc/src/incentive.rs:195-216 | the pool settled and the account credited, or an error exactly if power, accrual or earnings do not fit |
| BbBncPallet.BbBnc.GetRewards | pallets/bb-bnc/src/incentive.rs:225-263 | a claim pays what is stored, exactly if accrual and the receiver's balances fit: never short of funds; without voting power it only settles |
| BbBncPallet.BbBnc.AddOne | pallets/bb-bnc/src/lib.rs:2123-2163 | one currency of a round; in a covered pool which error, if any |
| BbBncPallet.BbBnc.AddReward | pallets/bb-bnc/src/lib.rs:2116-2165 | the rates of a round, and the controller's balances moved to the pool; in a covered pool which error, if any |
| BbBncPallet.BbBnc.NotifyRewardAmount | pallets/bb-bnc/src/incentive.rs:266-297 | a round is started, or the pool has at most been settled; exactly when and with which error it is refused |
| BbBncPallet.BbBnc.NotifyRewards | pallets/bb-bnc/src/lib.rs:746-759 | the call is all or nothing, keeps the invariant if it lists every currency that is being paid, and is refused exactly as stated |
| BbBncPallet.BbBnc.QueryPendingRewards | pallets/bb-bnc/src/lib.rs:860-896 | without a controller none; otherwise what an update would credit, or an overflow exactly if an update would overflow |
| Clearing.PassConserves | pallets/channel-commission/src/lib.rs:773-938 | channel credits and what Bifrost is due make up the commission of the period exactly if one vtoken uses the commission token, or there is none of it |
| Clearing.ClaimsWithin | pallets/channel-commission/src/lib.rs:773-833 | a commission token of one vtoken is never over-claimed |
| Clearing.CreditsWithin | pallets/channel-commission/src/lib.rs:795-807 | after both roundings the channels get at most the whole |
| Clearing.CreditIsShare | pallets/channel-commission/src/lib.rs:792-807 | a channel gets its rate of its share of the commission, twenty percent without one on record, less than two units below; and nothing without share, old issuance or commission token |
| Clearing.NewShareIsPart | pallets/channel-commission/src/lib.rs:862-884 | a new share in the amounts on record: the part of old issuance and net mint in the new issuance, rounded down; it stays without a net mint, and is lost without an issuance or with more than that |
| Clearing.PaidPerVtoken | pallets/channel-commission/src/lib.rs:896-938 | two vtokens with one commission token: of a commission of 100 Bifrost is due 200 |
| Clearing.NewSharesFit | pallets/channel-commission/src/lib.rs:835-894 | shares that come to at most the whole before a pass do so after it |
| Clearing.NeverImproper | pallets/channel-commission/src/lib.rs:868-884 | with an issuance on record no fraction is improper, so the fallback for one is never taken |
| Clearing.HoldingsFit | pallets/channel-commission/src/lib.rs:849-864 | the channels hold at most the new issuance |
| Clearing.PassSteps | pallets/channel-commission/src/lib.rs:357-364 | clearing channel i takes the pass from i to i + 1: each channel once |
| Clearing.PassEndsFit | pallets/channel-commission/src/lib.rs:835-894 | the shares in storage after the last channel come to at most the whole |
| ChannelCalls.MintSound | pallets/channel-commission/src/lib.rs:1008-1045 | what registered channels have minted stays part of what has been minted |
| ChannelCalls.MintRecorded | pallets/channel-commission/src/lib.rs:1008-1045 | a mint is added to the total and to its channel exactly if both sums fit, and touches nothing else |
| ChannelCalls.RegisteringIs | pallets/channel-commission/src/lib.rs:381-416 | a new channel has the next id, a rate of twenty percent and no share; the others are as they were |
| ChannelCalls.RemovingIs | pallets/channel-commission/src/lib.rs:420-458 | nothing is left on record of a channel that has been taken off, and nothing else has changed |
| ClearingCycle.RolledOverSound | pallets/channel-commission/src/lib.rs:696-750 | rollover keeps that, for both periods |
| ClearingCycle.RollsOver | pallets/channel-commission/src/lib.rs:670-771 | every amount of the period under way becomes one of the period being cleared, and the new issuances are taken down |
| ClearingCycle.PassConserved | pallets/channel-commission/src/lib.rs:896-938 | conservation for the books of a pass in storage |
| ClearingCycle.ShiftAll | pallets/channel-commission/src/lib.rs:696-768 | each period amount moves to the past and starts anew |
| ClearingCycle.ClearChannelCommissions | pallets/channel-commission/src/lib.rs:773-833 | each vtoken of the channel is credited once, to the claims of the channel and to the cleared amount |
| ClearingCycle.UpdateChannelVtokenShares | pallets/channel-commission/src/lib.rs:835-894 | every share of the channel is renewed, no other |
| ClearingCycle.ClearBifrostCommissions | pallets/channel-commission/src/lib.rs:896-938 | every vtoken is visited once; never more than what is due leaves the pot, and exactly that if it is funded |
| ChannelCalls.PayClaims | pallets/channel-commission/src/lib.rs:973-987 | everything a channel has to claim moves, or a transfer has failed |
| ChannelCalls.CheckShares | pallets/channel-commission/src/lib.rs:635-653 | the sum check is exact |
| ChannelCalls.ProposedIs | pallets/channel-commission/src/lib.rs:635-653 | what is checked is the sum of all shares with the new one in place of the old |
| ChannelCommissionPallet.ChannelCommission.SetClearingEnvironment | pallets/channel-commission/src/lib.rs:670-771 | opens a pass over the closed period |
| ChannelCommissionPallet.ChannelCommission.ClearChannel | pallets/channel-commission/src/lib.rs:357-364 | one channel is cleared and no other touched |
| ChannelCommissionPallet.ChannelCommission.ClearBifrost | pallets/channel-commission/src/lib.rs:896-938 | ends the pass with everything accounted for and the shares in order; a solvent pot has what is due |
| ChannelCommissionPallet.ChannelCommission.OnIdle | pallets/channel-commission/src/lib.rs:333-373 | the phase machine over every block of a period; the pot stays solvent |
| ChannelCommissionPallet.ChannelCommission.RecordMintAmount | pallets/channel-commission/src/lib.rs:1008-1045 | records a mint without disturbing a pass |
| ChannelCommissionPallet.ChannelCommission.RecordRedeemAmount | pallets/channel-commission/src/lib.rs:1047-1062 | records a redemption without disturbing a pass |
| ChannelCommissionPallet.ChannelCommission.RecordHostingFee | pallets/channel-commission/src/lib.rs:1067-1103 | records commission of the period under way without disturbing a pass; a fee that is in the pot keeps the pot solvent |
| ChannelCommissionPallet.ChannelCommission.ClaimCommissions | pallets/channel-commission/src/lib.rs:964-999 | pays a channel's claims and strikes them off, or changes nothing; a solvent pot never lacks the funds |
| ChannelCommissionPallet.ChannelCommission.RegisterChannel | pallets/channel-commission/src/lib.rs:381-416 | a new channel, at any time: in a pass it is cleared with the others; after Bifrost has been paid it starts another pass exactly if the hook has not yet run in the block of the period that is the number of channels there were and two |
| ChannelCalls.RegisteringInPass | pallets/channel-commission/src/lib.rs:381-416 | a pass goes on undisturbed with one channel more |
| ChannelCalls.PaysAgain | pallets/channel-commission/src/lib.rs:356-369 | with one channel more the hook comes to pay Bifrost in the period again exactly under that condition |
| ChannelCalls.TwicePaid | pallets/channel-commission/src/lib.rs:896-938 | claims and the two payments then come to twice the commission |
| ChannelCommissionPallet.RegisterLate | pallets/channel-commission/src/lib.rs:333-416 | a channel registered in the block after the one that pays Bifrost: the hook pays it again, the same commission |
| ChannelCommissionPallet.ChannelCommission.RemoveChannel | pallets/channel-commission/src/lib.rs:420-458 | a channel is paid and taken off, or nothing changes |
| CommissionPot.RolloverCovers | pallets/channel-commission/src/lib.rs:738-750 | rollover keeps the pot covering claims, what a pass has still to give out, and the commission under way |
| CommissionPot.ClearCovers | pallets/channel-commission/src/lib.rs:773-833 | so does crediting a channel |
| CommissionPot.BifrostCovers | pallets/channel-commission/src/lib.rs:896-938 | so does paying Bifrost; the pot has what is due |
| CommissionPot.ClaimKeeps | pallets/channel-commission/src/lib.rs:964-999 | so does paying a claim; the pot has what a channel has to claim |
| CommissionPot.RegisterCovers | pallets/channel-commission/src/lib.rs:381-416 | so does a new channel that makes no further pass begin |
| CommissionPot.RegisterAgainCovers | pallets/channel-commission/src/lib.rs:381-416 | a channel that makes another pass begin leaves the pot solvent exactly if the pot holds the commission of the last period once more |
| CommissionPot.FeeCovers | pallets/channel-commission/src/lib.rs:1088-1100 | so does a recorded fee that has reached the pot |
| ChannelCommissionPallet.ChannelCommission.SetChannelVtokenShares | pallets/channel-commission/src/lib.rs:614-665 | a share is set exactly if all together make up at most the whole |
| BuyBackPallet.GetTargetBlock | pallets/buy-back/src/lib.rs:554-581 | the block of the quote, from last block, currency bytes and duration |
| BuyBackPallet.TargetInWindow | pallets/buy-back/src/lib.rs:573-580 | the quote leaves room for the attempt exactly in windows of two blocks or more |
| BuyBackPallet.TargetIsResidue | pallets/buy-back/src/lib.rs:554-581 | the block of the quote is last block plus up to four bytes of the currency, little-endian, counted around the blocks that leave room for the attempt |
| BuyBackPallet.SameTarget | pallets/buy-back/src/lib.rs:554-581 | two quotes fall in the same block exactly if their entropies agree modulo that room |
| BuyBackPallet.EveryBlockReached | pallets/buy-back/src/lib.rs:573-580 | every block that leaves room for the attempt is the block of the quote for some currency |
| BuyBackPallet.LiquidityFields | pallets/buy-back/src/lib.rs:239-295 | which block asks for a quote, which adds liquidity, and what that changes |
| BuyBackPallet.BuyBackFields | pallets/buy-back/src/lib.rs:297-360 | which block asks for a quote, which attempts the buy-back, and what that changes |
| BuyBackPallet.OneWindow | pallets/buy-back/src/lib.rs:297-360 | in a window of two blocks or more exactly one attempt is made, one block after the quote, if there is a quote; the next window begins where this one ends |
| BuyBackPallet.FailedQuote | pallets/buy-back/src/lib.rs:297-360 | after a failed quote no attempt is ever made again |
| BuyBackPallet.ManyWindows | pallets/buy-back/src/lib.rs:297-360 | k windows hold k attempts |
| BuyBackPallet.OneBlockWindow | pallets/buy-back/src/lib.rs:297-360 | with a duration of one there is one attempt, a block late, and never another |
| BuyBackPallet.Recurs | pallets/buy-back/src/lib.rs:297-360 | one attempt to a window exactly if the duration is at least two |
| BuyBackPallet.LiquidityEvery | pallets/buy-back/src/lib.rs:239-295 | over a run with working quotes liquidity is added in the blocks that are a multiple of the duration after the start, and in no other |
| BuyBackPallet.LiquidityNever | pallets/buy-back/src/lib.rs:239-295 | with a duration of one it never is |
| BuyBackPallet.FailedLiquidityQuote | pallets/buy-back/src/lib.rs:239-295 | without a minimum from an earlier quote liquidity is ever added again exactly if its next quote comes and succeeds |
| BuyBackPallet.BuyBack.RunLiquidity | pallets/buy-back/src/lib.rs:239-295 | the liquidity arm for one currency |
| BuyBackPallet.BuyBack.RunBuyBack | pallets/buy-back/src/lib.rs:297-360 | the buy-back arm for one currency |
| BuyBackPallet.BuyBack.OnInitialize | pallets/buy-back/src/lib.rs:230-363 | every currency takes one step, and attempts are logged |
| BuyBackPallet.BuyBack.SetVtoken | pallets/buy-back/src/lib.rs:371-411 | checks in order; a new window begins with the call |
| CloudsConvert.WorthAtMostPool | pallets/clouds-convert/src/lib.rs:194-211 | clouds are worth at most the pool, all of them exactly the pool, and nothing saturates |
| CloudsConvert.ConversionFair | pallets/clouds-convert/src/lib.rs:145-156 | the pool per remaining cloud does not fall |
| CloudsConvert.PartsFair | pallets/clouds-convert/src/lib.rs:122-168 | nor after any sequence of conversions |
| CloudsConvert.SplittingNeverPays | pallets/clouds-convert/src/lib.rs:122-168 | splitting a conversion never pays more than converting at once |
| CloudsConvert.Accepted | pallets/clouds-convert/src/lib.rs:122-156 | a conversion is accepted exactly if the clouds are there and worth neither less than expected nor less than the existential deposit; at either limit it is |
| CloudsConvert.Clouds.CloudsToVebnc | pallets/clouds-convert/src/lib.rs:122-168 | a conversion burns, pays the rounded part and locks it, or changes nothing; refusals in order |
| CloudsConvert.Clouds.ChargeVbnc | pallets/clouds-convert/src/lib.rs:172-190 | the pool grows by the amount |
| MarkupLedger.EntryCounts | pallets/bb-bnc/src/lib.rs:1512-1528 | an entry is within the token total and the account coefficient, so no subtraction saturates |
| MarkupLedger.EntryShare | pallets/bb-bnc/src/lib.rs:1337-1367 | with a deposit added to entry and total the share of an entry is at most one |
| MarkupLedger.CoefficientMeasures | pallets/bb-bnc/src/lib.rs:1356-1394 | a coefficient is the share weight for the share of what is locked and the weight for the share of what exists, never more, less only by rounding, unless it is the cap |
| MarkupLedger.CoefficientComputes | pallets/bb-bnc/src/lib.rs:1356-1394 | there is one for an amount that is locked and exists, if the weights fit together |
| MarkupLedger.WriteEntry | pallets/bb-bnc/src/traits.rs:209-217 | writing an entry and the account coefficient keeps the coefficient the sum of its entries |
| MarkupLedger.SaturatedEntry | pallets/bb-bnc/src/traits.rs:209-217 | and fails to exactly when the sum does not fit |
| MarkupLedger.WriteTotal | pallets/bb-bnc/src/lib.rs:1337-1354 | writing an entry and the token total keeps the total the sum of its entries |
| MarkupLedger.Markup.DepositMarkup | pallets/bb-bnc/src/lib.rs:1328-1431 | the entry stores what the bonus query announced, which is what amount and weights come to; exactly when it is refused; the ledgers stay right exactly if the coefficients fit |
| MarkupLedger.Markup.WithdrawMarkup | pallets/bb-bnc/src/lib.rs:1493-1552 | the entry is gone and both ledgers are right |
| MarkupLedger.Markup.RefreshOne | pallets/bb-bnc/src/lib.rs:1570-1641 | one entry is brought up to what amount and weights come to; no other is touched |
| MarkupLedger.Markup.Refresh | pallets/bb-bnc/src/lib.rs:1554-1650 | at most the limit of entries is brought up to date, fewer only when none is left, and no amount changes |

## Left out

- Markup inside bbBNC: balances can then exceed the total supply, so the curve and solvency statements are for runs without it. The markup ledger is modelled by itself; bringing positions up to date is a parameter there.
- `deposit_for`: it checks neither owner nor end.
- Pools other than the system pool, and share information in reward updates.
- The mint of vBNC from claimed BNC, gauge refresh, swaps, liquidity and cross-chain messages: calls into other pallets, represented by parameters or left out.
- Existential deposits of accounts other than the check in the clouds conversion.
- Saturation of block numbers at u32, which are unbounded here.
- BbBncPallet.BbBnc.Transfer: a small ledger with locks in place of the currencies pallet; total issuance is not tracked.
- BbBncPallet.BbBnc.PayOutExpired: the order of storage iteration and logging are not modelled.
- BbBncPallet.BbBnc.GetRewards: the conversion of claimed BNC may fail in the source and undo the claim.
- ChannelCommissionPallet.ChannelCommission.SetClearingEnvironment: an issuance that cannot be read, after which the source keeps what it has rolled over so far.
- ChannelCommissionPallet.ChannelCommission.ClearBifrost: a payment that fails for lack of funds in the pot is skipped, as in the source; conservation is stated for what is due, and for what is paid when the pot is funded.
- ChannelCommissionPallet.ChannelCommission.RemoveChannel: not while a pass has cleared some channels and not others; nor setting a share (SetChannelVtokenShares), which then is checked against old and new shares together.
- BbBncPallet.BbBnc.GlobalCheckpoint: a checkpoint more than 255 weeks after the last one, which the week loop does not reach (WeekSteps); the same for Checkpoint.
- ChannelCommissionPallet.ChannelCommission.RegisterChannel: a channel for which the period has no block left in which it could be cleared.
- CloudsConvert.Clouds.CloudsToVebnc: the outcome of locking what is paid is a parameter.
- MarkupLedger.Markup.DepositMarkup: the outcome of bringing the positions of the account up to date is a parameter, as for WithdrawMarkup and Refresh.
- `set_commission_tokens`, `set_channel_commission_token`, `update_channel_receive_account`: configuration between passes.
- `buy_back`, `add_liquidity`, `charge` of the buy-back pallet: transfers and swaps whose outcome does not affect the schedule.
- Origins, weights, events, migrations, node and runtime configuration.
