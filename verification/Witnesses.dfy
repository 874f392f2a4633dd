/** Runs of the bbBNC pallet from its genesis in which properties that do not hold without conditions fail. */
module Witnesses {
  import opened Primitives
  import opened Sums
  import opened Weeks
  import opened Curve
  import opened Voting
  import opened LockLedger
  import opened ExpiryIndex
  import opened Rewards
  import opened Solvency
  import opened Notify
  import opened Tokens
  import opened EarlyRedeem
  import opened Invariants
  import opened Calls
  import opened State
  import opened LockCalls
  import opened RewardCalls
  import opened Headroom
  import opened Forfeits
  import opened BbBncPallet

  const VBNC := Currency(0)
  const REWARD := Currency(7)
  const OWNER := Account(1)
  const FUNDER := Account(2)
  const POOL := Account(100)
  const BUY_BACK := Account(101)
  const LOCK := LockedBalance(8, 50)

  /** Weeks of 10 blocks, locks of up to 100, a year of 10. */
  const SMALL := Params(10, 100, 1, 0, 10, 50, 1, VBNC, POOL, BUY_BACK)

  /** What two accounts hold at the start: one has vBNC to lock, the other tokens for a reward round. */
  const ENDOWMENT: Holdings := map[(VBNC, OWNER) := 8, (REWARD, FUNDER) := 2]

  // ---- A lock --------------------------------------------------------------------------

  lemma EndOfLock()
    ensures NextWeek(10, 45) == 50 && NextWeek(10, 110) == 120
  {
    WeekFloorIsDivision(10, 45);
    WeekFloorIsDivision(10, 110);
  }

  /** Without weight of the curve the total is a quarter of what is locked. */
  lemma QuarterTotal(s: Store)
    ensures TotalNow(SMALL, s) == s.book.supply / 4
  {
    assert 0 * Max0(BiasAt(SMALL.maxBlock, s.book.locked, s.now)) == 0;
  }

  lemma Admissible(s: Store)
    requires Genesis(s) && s.now == 10 && s.config == Config(0, 0, 0)
    ensures AdmitError(SMALL, s, OWNER, 8, NextWeek(10, 45)).None?
  {
    EndOfLock();
  }

  lemma Depositable(s: Store)
    requires Genesis(s) && s.free == ENDOWMENT
    ensures DepositError(AddPosition(s.book, OWNER), Held(s.free, VBNC, OWNER), 0, 8).None?
  {
  }

  lemma LockFits(s: Store)
    requires Genesis(s) && s.now == 10
    ensures DepositFits(SMALL, s, LOCK)
  {
    QuarterTotal(s);
    FitsMeaning(SMALL, s);
    assert Slope(SMALL.maxBlock, LOCK) == 0 && 0 * Left(LOCK, 10) == 0;
  }

  /** The owner can lock all he has. */
  lemma CanLock(s: Store)
    requires Genesis(s) && s.now == 10 && s.free == ENDOWMENT && s.config == Config(0, 0, 0)
    ensures CreateError(SMALL, s, OWNER, 8, 35).None? && CreateFits(SMALL, s, 8, 35)
  {
    EndOfLock();
    Admissible(s);
    Depositable(s);
    LockFits(s);
  }

  /** The storage with the owner's position. */
  ghost predicate OneLock(s: Store) {
    && s.book == LockBook(8, map[0 := LOCK], map[OWNER := 8], 1, map[OWNER := [0]], map[0 := OWNER])
    && s.config == Config(0, 0, 0) && Listed(s.expiring, 50) == [0] && s.nextExpiring == 50 && s.LastPoint().block == 10
    && s.accounts.rewards == map[] && s.accounts.paid == map[OWNER := map[]] && s.accounts.conf.rewardPerToken == map[]
  }

  lemma NothingAccrued(s: Store, who: Account, total: nat, balance: nat)
    requires Genesis(s)
    ensures Update(1, s.accounts, Some(who), s.now, total, balance) == s.accounts.(paid := map[who := map[]])
  {
  }

  lemma LockedBook(s: Store)
    requires Genesis(s)
    ensures Deposit(AddPosition(s.book, OWNER), 0, 8, 50)
         == LockBook(8, map[0 := LOCK], map[OWNER := 8], 1, map[OWNER := [0]], map[0 := OWNER])
  {
    var b := Deposit(AddPosition(s.book, OWNER), 0, 8, 50);
    assert PositionsOf(s.book, OWNER) + [0] == [0];
    assert b.locked == map[0 := LOCK] && b.userLocked == map[OWNER := 8];
    assert b.userPositions == map[OWNER := [0]] && b.owner == map[0 := OWNER];
  }

  lemma LockedParts(s: Store, s1: Store, s': Store)
    requires Genesis(s) && s1 == s.(book := AddPosition(s.book, OWNER)) && Checkpointed(SMALL, s1, s', 0, LOCK)
    ensures s'.LastPoint().block == s.now && s'.accounts == s.accounts.(paid := map[OWNER := map[]])
  {
    assert CheckpointedPart(SMALL, s1, s', 0, LOCK, RewardPool) && CheckpointedPart(SMALL, s1, s', 0, LOCK, Summary);
    NothingAccrued(s, OWNER, TotalNow(SMALL, s1), MidCallBalance(SMALL, s1, 0, LOCK));
  }

  lemma Locked(s: Store, s': Store)
    requires Genesis(s) && s.now == 10 && s.config == Config(0, 0, 0) && Created(SMALL, s, s', OWNER, 8, 35)
    ensures OneLock(s') && s'.now == 10 && s'.free == s.free && s'.accounts.conf == s.accounts.conf
  {
    EndOfLock();
    LockedBook(s);
    LockedParts(s, s.(book := AddPosition(s.book, OWNER)), s');
  }

  // ---- A position redeemed early -------------------------------------------------------

  lemma OneKey(locks: Locks, f: PositionId -> int)
    requires locks.Keys == {0}
    ensures Sum(locks.Keys, f) == f(0)
  {
    SumRemove(locks.Keys, f, 0);
    assert locks.Keys - {0} == {};
  }

  /** Until the lock ends the owner's voting power is the total: a quarter of what he has locked. */
  lemma OwnerPower(s: Store)
    requires Inv(SMALL, s) && OneLock(s) && s.now < 50
    ensures TotalNow(SMALL, s) == 2 && CreditedNow(SMALL, s, Some(OWNER)) == 2 && PowerOf(SMALL, s, 0) == 2
  {
    QuarterTotal(s);
    CreditedFits(SMALL, s, OWNER);
    OneKey(s.book.locked, Share(OwnerOf(s.book.owner),
                                PowerTerm(SMALL.maxBlock, SMALL.voteWeight, s.book.locked, s.now), OWNER));
  }

  lemma CanNotify(s: Store)
    requires Inv(SMALL, s) && OneLock(s) && s.now == 10 && s.free == ENDOWMENT && s.accounts.conf.rewardRate == map[]
    ensures NotifyError(SMALL, s, FUNDER, 1, [REWARD]).None?
  {
    OwnerPower(s);
    FitsMeaning(SMALL, s);
  }

  /** The round pays both units of the reward in its one block. */
  ghost predicate TwoInOneBlock(conf: IncentiveConfig) {
    && conf.rewardPerToken == map[] && conf.lastUpdateTime == 10 && conf.periodFinish == 11
    && conf.controller == Some(FUNDER)
    && forall c :: Get(conf.rewardRate, c, 0) == if c == REWARD then 2 else 0
  }

  /** Without rates a settlement leaves everything but the settings as it was. */
  lemma Quiet(s: Store, s1: Store, duration: nat)
    requires s.accounts.conf.rewardRate == map[] && s.accounts.conf.rewardPerToken == map[]
    requires s1 == Updated(SMALL, Configured(s, FUNDER, Some(duration)), None)
    ensures s1.accounts.conf.rewardRate == map[] && s1.accounts.conf.rewardPerToken == map[]
    ensures s1.accounts.conf.rewardsDuration == duration
    ensures s1.accounts.conf.periodFinish == s.accounts.conf.periodFinish
    ensures s1.accounts.rewards == s.accounts.rewards && s1.accounts.paid == s.accounts.paid
  {
    assert Get(s1.accounts.conf.rewardPerToken, REWARD, 0) == 0;
  }

  /** The rate of a first round. */
  lemma FirstRates(conf: IncentiveConfig, now: nat, reward: Currency -> nat, conf': IncentiveConfig, c: Currency)
    requires Notified(conf, now, reward, [REWARD], conf') && conf.rewardRate == map[] && conf.rewardsDuration > 0
    requires reward(REWARD) <= U128_MAX
    ensures Get(conf'.rewardRate, c, 0) == if c == REWARD then reward(REWARD) / conf.rewardsDuration else 0
  {
    var remaining := SatSub(conf.periodFinish, now);
    assert Get(conf'.rewardRate, c, 0) == RateAfter(conf, remaining, reward, [REWARD], c);
    assert 0 * remaining == 0;
  }

  lemma RoundBegun(s: Store, s': Store)
    requires OneLock(s) && s.now == 10 && s.free == ENDOWMENT
    requires s.accounts.conf.rewardRate == map[] && s.accounts.conf.periodFinish == 0
    requires RoundStarted(SMALL, Updated(SMALL, Configured(s, FUNDER, Some(1)), None), s', FUNDER, [REWARD])
    ensures OneLock(s') && TwoInOneBlock(s'.accounts.conf) && s'.now == 10
    ensures Held(s'.free, VBNC, OWNER) == 8 && Held(s'.free, VBNC, BUY_BACK) == 0
  {
    var s1 := Updated(SMALL, Configured(s, FUNDER, Some(1)), None);
    Quiet(s, s1, 1);
    forall c
      ensures Get(s'.accounts.conf.rewardRate, c, 0) == if c == REWARD then 2 else 0
    {
      FirstRates(s1.accounts.conf, 10, HeldBy(s1.free, FUNDER), s'.accounts.conf, c);
    }
    assert Moved(s1.free, s'.free, FUNDER, POOL, PutIn(s1.free, FUNDER, [REWARD])(VBNC), VBNC);
  }

  /** Ten blocks later the round has ended without a next one. */
  ghost predicate Accruing(s: Store) {
    OneLock(s) && TwoInOneBlock(s.accounts.conf) && s.now == 20
    && Held(s.free, VBNC, OWNER) == 8 && Held(s.free, VBNC, BUY_BACK) == 0
  }

  lemma OneEach(conf: IncentiveConfig, c: Currency)
    requires TwoInOneBlock(conf)
    ensures Increment(1, conf, 20, 2, c) == if c == REWARD then 1 else 0
    ensures Get(Accrue(1, conf, 20, 2).rewardPerToken, c, 0) == if c == REWARD then 1 else 0
  {
    assert Get(conf.rewardRate, c, 0) == if c == REWARD then 2 else 0;
    assert LastTimeApplicable(conf, 20) == 11;
    assert 1 * 0 * 1 / 2 == 0 && 1 * 2 * 1 / 2 == 1;
  }

  lemma AccruedOne(s: Store)
    requires Inv(SMALL, s) && Accruing(s)
    ensures Fits(SMALL, s) && Uncredited(SMALL, s, OWNER, REWARD) == 1
  {
    OwnerPower(s);
    FitsMeaning(SMALL, s);
    forall c
      ensures Increment(1, s.accounts.conf, 20, 2, c) <= 1
    {
      OneEach(s.accounts.conf, c);
    }
    OneEach(s.accounts.conf, REWARD);
  }

  lemma ReportsTwo(s: Store)
    requires Inv(SMALL, s) && Accruing(s)
    ensures Get(Reported(SMALL, s, OWNER), REWARD, 0) == 2
  {
    OwnerPower(s);
    AccruedOne(s);
    ReportedIs(SMALL, s, OWNER, REWARD);
  }

  const RATE: nat := 640_000_000_000_000_000

  lemma ThirtyBlocksRate()
    ensures RedeemCommission(SMALL.oneYear, SMALL.fiveYears, 30) == Ok(RATE)
  {
    CommissionValue(SMALL.oneYear, SMALL.fiveYears, 30);
  }

  lemma CanRedeem(s: Store)
    requires Inv(SMALL, s) && Accruing(s)
    ensures RedeemError(SMALL, s, OWNER, 0).None? && RedeemFits(SMALL, s, OWNER, 0)
  {
    AccruedOne(s);
    ThirtyBlocksRate();
    FeeBound(Some(RATE), 8);
  }

  lemma StoresNothing(s: Store, s': Store)
    requires Inv(SMALL, s) && Accruing(s) && Redeemed(SMALL, s, s', 0)
    ensures Due(s', OWNER, REWARD) == 0
  {
    OwnerPower(s);
    ThirtyBlocksRate();
    StoredByWithdrawal(SMALL, s, s', 0, Fee(Some(RATE), 8), REWARD);
  }

  lemma StillReached(s: Store, now: nat)
    requires OneLock(s) && now <= 2560
    ensures Reaches(SMALL, s.epoch, s.pointHistory, now)
  {
    WeekFloorIsDivision(10, 10);
  }

  /** From genesis to the lock. */
  method LockAll() returns (pallet: BbBnc)
    ensures fresh(pallet) && pallet.k == SMALL && pallet.Valid() && pallet.CanCheckpoint() && pallet.Guarded()
    ensures OneLock(pallet.Snapshot()) && pallet.now == 10 && pallet.free == ENDOWMENT
    ensures pallet.incentive.rewardRate == map[] && pallet.incentive.periodFinish == 0
    ensures pallet.incentive.controller.None?
  {
    pallet := new BbBnc(SMALL, 10, ENDOWMENT);
    ghost var s := pallet.Snapshot();
    CanLock(s);
    var _ := pallet.CreateLock(OWNER, 8, 35, true);
    Locked(s, pallet.Snapshot());
  }

  /** On to the reward round. */
  method Fund(pallet: BbBnc)
    requires pallet.k == SMALL && pallet.Valid() && OneLock(pallet.Snapshot()) && pallet.now == 10
    requires pallet.free == ENDOWMENT && pallet.incentive.rewardRate == map[] && pallet.incentive.periodFinish == 0
    modifies pallet
    ensures pallet.Valid() && OneLock(pallet.Snapshot()) && TwoInOneBlock(pallet.incentive) && pallet.now == 10
    ensures Held(pallet.free, VBNC, OWNER) == 8 && Held(pallet.free, VBNC, BUY_BACK) == 0
  {
    ghost var s := pallet.Snapshot();
    CanNotify(s);
    var _ := pallet.NotifyRewards(FUNDER, Some(1), [REWARD]);
    RoundBegun(s, pallet.Snapshot());
  }

  /** On to block 20, where the round has ended and the lock has not. */
  method Wait(pallet: BbBnc, gaugeOk: PositionId -> bool)
    requires pallet.k == SMALL && pallet.Valid() && OneLock(pallet.Snapshot()) && TwoInOneBlock(pallet.incentive)
    requires pallet.now == 10 && Held(pallet.free, VBNC, OWNER) == 8 && Held(pallet.free, VBNC, BUY_BACK) == 0
    modifies pallet
    ensures pallet.Valid() && pallet.CanCheckpoint() && Accruing(pallet.Snapshot())
  {
    pallet.NewBlock(20);
    StillReached(pallet.Snapshot(), 20);
    var _, _, _, _ := pallet.OnInitialize(gaugeOk);
  }

  /** One account locks 8, a round pays 2 to it, and in block 20 the query reports both. The account then redeems its
      position early, and none of it is stored. */
  method RewardLost(gaugeOk: PositionId -> bool)
    returns (pallet: BbBnc, reported: Result<Amounts>, redeemed: Result<()>)
    ensures reported.Ok? && Get(reported.value, REWARD, 0) == 2
    ensures redeemed.Ok? && Due(pallet.Snapshot(), OWNER, REWARD) == 0
  {
    pallet := LockAll();
    Fund(pallet);
    Wait(pallet, gaugeOk);
    ghost var s := pallet.Snapshot();
    AccruedOne(s);
    ReportsTwo(s);
    reported := pallet.QueryPendingRewards(OWNER);
    CanRedeem(s);
    redeemed := pallet.RedeemUnlock(OWNER, 0, true);
    StoresNothing(s, pallet.Snapshot());
  }

  // ---- More is due than one block may handle -------------------------------------------

  lemma OneEntry(index: Index)
    requires Listed(index, 50) == [0]
    ensures DueEntries(index, 50, 51) == 1
  {
    assert DueEntries(index, 50, 50) == 0;
  }

  /** The same position falls due while automatic withdrawal is limited to none: it stays, and automatic withdrawal has
      moved past it. */
  method LimitExceeded(gaugeOk: PositionId -> bool) returns (pallet: BbBnc)
    ensures pallet.Valid() && !pallet.Guarded() && Passed(pallet.now, pallet.nextExpiringBlock, 50)
    ensures Get(pallet.locked, 0, NO_LOCK) == LOCK && Get(pallet.positionOwner, 0, NOBODY) == OWNER
  {
    pallet := LockAll();
    pallet.NewBlock(50);
    StillReached(pallet.Snapshot(), 50);
    OneEntry(pallet.expiringPositions);
    var handled, failed;
    ghost var renewed, row;
    handled, failed, renewed, row := pallet.OnInitialize(gaugeOk);
  }

  // ---- A round that leaves a currency out ----------------------------------------------

  const TEN: Holdings := map[(REWARD, FUNDER) := 10]

  lemma EmptyFits(s: Store)
    requires s.book.supply == 0
    ensures Fits(SMALL, s)
  {
    QuarterTotal(s);
    FitsMeaning(SMALL, s);
  }

  /** The round pays one unit of the reward in each of its ten blocks. */
  ghost predicate TenInTenBlocks(s: Store) {
    var conf := s.accounts.conf;
    && conf.rewardPerToken == map[] && conf.lastUpdateTime == 0 && conf.periodFinish == 10
    && Get(conf.rewardRate, REWARD, 0) == 1 && s.book.supply == 0 && s.now == 0 && Held(s.free, REWARD, POOL) == 10
  }

  lemma CanFundTen(s: Store)
    requires Genesis(s) && s.free == TEN
    ensures NotifyError(SMALL, s, FUNDER, 10, [REWARD]).None? && ListsAll(s.accounts.conf, [REWARD])
  {
    EmptyFits(s);
  }

  /** Nobody has any power yet: a settlement only moves the update time. */
  lemma Unpowered(s: Store, s1: Store, duration: nat)
    requires s.book.supply == 0 && s1 == Updated(SMALL, Configured(s, FUNDER, Some(duration)), None)
    ensures s1.free == s.free && s1.accounts.conf.rewardRate == s.accounts.conf.rewardRate
    ensures s1.accounts.conf.rewardsDuration == duration
    ensures s1.accounts.conf.periodFinish == s.accounts.conf.periodFinish
    ensures s1.accounts.conf.rewardPerToken == s.accounts.conf.rewardPerToken
  {
    QuarterTotal(Configured(s, FUNDER, Some(duration)));
  }

  /** What has moved to the pool of one currency. */
  lemma InPool(s: Store, s': Store, list: seq<Currency>)
    requires RoundStarted(SMALL, s, s', FUNDER, list)
    ensures Held(s'.free, REWARD, POOL) == Held(s.free, REWARD, POOL) + PutIn(s.free, FUNDER, list)(REWARD)
  {
    assert Moved(s.free, s'.free, FUNDER, POOL, PutIn(s.free, FUNDER, list)(REWARD), REWARD);
  }

  lemma TenBegun(s: Store, s': Store)
    requires Genesis(s) && s.now == 0 && s.free == TEN
    requires RoundStarted(SMALL, Updated(SMALL, Configured(s, FUNDER, Some(10)), None), s', FUNDER, [REWARD])
    ensures TenInTenBlocks(s')
  {
    var s1 := Updated(SMALL, Configured(s, FUNDER, Some(10)), None);
    Unpowered(s, s1, 10);
    InPool(s1, s', [REWARD]);
    FirstRates(s1.accounts.conf, 0, HeldBy(s1.free, FUNDER), s'.accounts.conf, REWARD);
  }

  /** A currency that is not listed keeps its rate over the whole new round. */
  lemma KeepsRate(conf: IncentiveConfig, now: nat, reward: Currency -> nat, conf': IncentiveConfig, c: Currency)
    requires Notified(conf, now, reward, [], conf')
    ensures Reserved(conf', c) == Get(conf.rewardRate, c, 0) * conf.rewardsDuration
  {
    assert Get(conf'.rewardRate, c, 0) == RateAfter(conf, SatSub(conf.periodFinish, now), reward, [], c);
  }

  lemma Prolonged(s: Store, s': Store)
    requires TenInTenBlocks(s)
    requires RoundStarted(SMALL, Updated(SMALL, Configured(s, FUNDER, Some(100)), None), s', FUNDER, [])
    ensures Reserved(s'.accounts.conf, REWARD) == 100 && Held(s'.free, REWARD, POOL) == 10
  {
    var s1 := Updated(SMALL, Configured(s, FUNDER, Some(100)), None);
    Unpowered(s, s1, 100);
    InPool(s1, s', []);
    KeepsRate(s1.accounts.conf, 0, HeldBy(s1.free, FUNDER), s'.accounts.conf, REWARD);
  }

  /** A pool that reserves more than it holds is not solvent. */
  lemma NotCovered(s: Store, c: Currency)
    requires Held(s.free, c, POOL) < Reserved(s.accounts.conf, c)
    ensures !Inv(SMALL, s)
  {
    if Inv(SMALL, s) {
      assert PartOk(SMALL, s, RewardPool);
      AllNonNeg(SMALL.maxBlock, SMALL.voteWeight, s.book, s.now);
      ReservedCovered(1, s.accounts, s.Balances(SMALL), s.book.userPositions.Keys, s.Pool(SMALL), c);
      assert false;
    }
  }

  /** A round of ten blocks is funded with 10. The next one lists nothing and takes a hundred blocks: the
      currency left out keeps its rate, and the pool reserves 100 and holds 10. */
  method CurrencyLeftOut() returns (pallet: BbBnc, first: Result<()>, second: Result<()>)
    ensures first.Ok? && second.Ok? && !pallet.Valid()
    ensures Reserved(pallet.incentive, REWARD) == 100 && Held(pallet.free, REWARD, POOL) == 10
  {
    pallet := new BbBnc(SMALL, 0, TEN);
    ghost var s := pallet.Snapshot();
    CanFundTen(s);
    first := pallet.NotifyRewards(FUNDER, Some(10), [REWARD]);
    TenBegun(s, pallet.Snapshot());
    ghost var s1 := pallet.Snapshot();
    EmptyFits(s1);
    second := pallet.NotifyRewards(FUNDER, Some(100), []);
    Prolonged(s1, pallet.Snapshot());
    NotCovered(pallet.Snapshot(), REWARD);
  }
}
