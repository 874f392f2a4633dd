/** The storage of the pallet as a value, its invariant, and the calls' effect on the invariant. */
module State {
  import opened Primitives
  import opened Weeks
  import opened Curve
  import opened Lines
  import opened Voting
  import opened History
  import opened LockLedger
  import opened ExpiryIndex
  import opened Rewards
  import opened Solvency
  import opened Notify
  import opened Tokens
  import opened Invariants
  import opened Calls

  /** The limits that the control origin sets. */
  datatype Config = Config(minMint: nat, minBlock: nat, maxPerBlock: nat)

  datatype Store = Store(
    config: Config,
    now: nat,
    free: Holdings,
    book: LockBook,
    epoch: nat,
    pointHistory: GlobalHistory,
    slopeChanges: map<nat, int>,
    userPointEpoch: map<PositionId, nat>,
    userPointHistory: UserHistory,
    expiring: Index,
    nextExpiring: nat,
    accounts: Accounts,
    ghost recorded: map<(PositionId, nat), nat>)
  {
    function LastPoint(): Point {
      GlobalPoint(pointHistory, epoch)
    }

    function Pool(k: Params): Currency -> nat {
      HeldBy(free, k.pool)
    }

    ghost function Balances(k: Params): Account -> int {
      Voting.Balances(k.maxBlock, k.voteWeight, book.locked, book.owner, now)
    }
  }

  predicate BackedFor(k: Params, s: Store, u: Account) {
    Get(s.book.userLocked, u, 0) <= Held(s.free, k.token, u)
  }

  /** Nobody has more locked than he holds, and the reward pool has nothing locked. */
  ghost predicate Backed(k: Params, s: Store) {
    (forall u :: BackedFor(k, s, u)) && Get(s.book.userLocked, k.pool, 0) == 0
  }

  /** The global summary stands for the locks, and its amount is the supply. */
  ghost predicate CurveOk(k: Params, s: Store) {
    && Summarised(k, LineOf(k.maxBlock, s.book.locked), s.epoch, s.pointHistory, s.slopeChanges, s.now)
    && LocksFit(k, s.book.locked, s.LastPoint().block)
    && s.LastPoint().amount == s.book.supply
  }

  /** The next round can be started with the currencies of the last one: they are all that are
      being paid out, each once, and the pool does not pay itself. */
  predicate Renewable(k: Params, conf: IncentiveConfig) {
    Distinct(conf.lastReward) && ListsAll(conf, conf.lastReward) && conf.controller != Some(k.pool)
  }

  /** The reward pool covers everything it owes. */
  ghost predicate RewardsOk(k: Params, s: Store) {
    && Renewable(k, s.accounts.conf)
    && Solvent(k.multiplier, s.accounts, s.Balances(k), s.book.userPositions.Keys, s.Pool(k))
    && Timely(s.accounts.conf, s.now)
  }

  /** Only positions that have existed are on record. */
  ghost predicate RecordedId(s: Store, p: PositionId, t: nat) {
    (p, t) in s.recorded ==> p < s.book.next
  }

  ghost predicate HistoriesOk(k: Params, s: Store) {
    && (forall p, t: nat :: RecordedId(s, p, t))
    && PointsOk(k, s.book.locked, s.book.owner, s.userPointEpoch, s.userPointHistory, s.now)
    && PastOk(k.voteWeight, s.book.locked, s.book.owner, s.userPointEpoch, s.userPointHistory, s.recorded, s.now)
  }

  datatype Part = Ledger | Summary | Histories | Backing | RewardPool

  ghost predicate PartOk(k: Params, s: Store, part: Part) {
    match part
    case Ledger => Sound(s.book, k.maxPositions)
    case Summary => CurveOk(k, s)
    case Histories => HistoriesOk(k, s)
    case Backing => Backed(k, s)
    case RewardPool => RewardsOk(k, s)
  }

  /** Everything that holds between calls, apart from the expiry index. */
  ghost predicate Inv(k: Params, s: Store) {
    forall part :: PartOk(k, s, part)
  }

  ghost predicate IndexOk(s: Store) {
    Agrees(s.book.locked, s.book.owner, s.expiring)
  }

  // ---- Lines ---------------------------------------------------------------------------

  /** The lines before and after one lock changes are as the checkpoint needs them. */
  lemma LinesReady(k: Params, locked: Locks, p: PositionId, l: LockedBalance, b: nat, now: nat)
    requires LocksFit(k, locked, b) && b <= now && p in locked
    requires l == NO_LOCK || (OnWeek(k.week, l.end) && l.end <= now + k.Span())
    ensures EndedFrom(LineOf(k.maxBlock, locked), b + k.Span())
    ensures Replaced(k.maxBlock, LineOf(k.maxBlock, locked), LineOf(k.maxBlock, locked[p := l]), locked[p], l)
    ensures Weekly(k.week, LineOf(k.maxBlock, locked[p := l]), now)
    ensures LocksFit(k, locked[p := l], now)
  {
    LineOfEnded(k.maxBlock, locked, b + k.Span());
    LineOfReplaced(k.maxBlock, locked, p, l);
    LineOfWeekly(k.maxBlock, k.week, locked[p := l], now);
  }

  // ---- A checkpoint --------------------------------------------------------------------

  /** Which locks a call may write now. */
  predicate Writable(k: Params, s: Store, p: PositionId, l: LockedBalance) {
    && p in s.book.owner && p in s.book.locked
    && LockChange(s.book.locked[p], l, s.now, p !in s.userPointEpoch)
    && (l == NO_LOCK || (OnWeek(k.week, l.end) && l.end <= s.now + k.Span()))
  }

  /** Total voting power as a call that finds storage s computes it. */
  ghost function TotalNow(k: Params, s: Store): nat {
    SupplyPower(k.voteWeight, s.book.supply, BiasAt(k.maxBlock, s.book.locked, s.now))
  }

  /** The caller's voting power as computed in the middle of a call that writes lock l. */
  function MidCallBalance(k: Params, s: Store, p: PositionId, l: LockedBalance): nat
    requires p in s.book.owner
  {
    CurrentTotal(k.voteWeight, s.book.locked[p := l], s.userPointEpoch, s.userPointHistory,
                 PositionsOf(s.book, s.book.owner[p]), s.now)
  }

  /** What a checkpoint for lock l does to each part it is responsible for. */
  ghost predicate CheckpointedPart(k: Params, s: Store, s': Store, p: PositionId, l: LockedBalance, part: Part)
    requires p in s.book.owner
  {
    match part
    case Ledger => s'.now == s.now && s'.recorded == s.recorded
    case Summary =>
      && Summarised(k, LineOf(k.maxBlock, s.book.locked[p := l]), s'.epoch, s'.pointHistory, s'.slopeChanges, s.now)
      && s'.LastPoint().block == s.now && s'.LastPoint().amount == s'.book.supply
    case Histories =>
      && s'.userPointHistory == WithPoint(k.maxBlock, s.userPointEpoch, s.userPointHistory, p, l, s.now)
      && BiasOf(k.maxBlock, l, s.now) <= I128_MAX
    case Backing => s'.free == s.free
    case RewardPool =>
      s'.accounts == Update(k.multiplier, s.accounts, Some(s.book.owner[p]), s.now, TotalNow(k, s),
                            MidCallBalance(k, s, p, l))
  }

  /** A checkpoint for position p with its new lock l. */
  ghost predicate Checkpointed(k: Params, s: Store, s': Store, p: PositionId, l: LockedBalance) {
    && Writable(k, s, p, l)
    && forall part :: part != Backing ==> CheckpointedPart(k, s, s', p, l, part)
  }

  /** Before the checkpoint: the lines of the old and the new locks are as it needs them, and ends
      only grow. */
  lemma CheckpointReady(k: Params, s: Store, p: PositionId, l: LockedBalance)
    requires k.Sane() && Inv(k, s) && Writable(k, s, p, l)
    ensures var c, c' := LineOf(k.maxBlock, s.book.locked), LineOf(k.maxBlock, s.book.locked[p := l]);
      && Summarised(k, c, s.epoch, s.pointHistory, s.slopeChanges, s.now)
      && EndedFrom(c, s.LastPoint().block + k.Span())
      && Replaced(k.maxBlock, c, c', s.book.locked[p], l) && Weekly(k.week, c', s.now)
      && SupplyPower(k.voteWeight, s.LastPoint().amount, c.bias(s.now)) == TotalNow(k, s)
    ensures l.end == 0 || s.book.locked[p].end <= l.end
    ensures s.book.locked[p].amount <= U128_MAX
  {
    assert PartOk(k, s, Summary) && PartOk(k, s, Histories) && PartOk(k, s, Ledger);
    assert PositionOk(k, s.book.locked, s.book.owner, s.userPointEpoch, s.userPointHistory, s.now, p);
    LinesReady(k, s.book.locked, p, l, s.LastPoint().block, s.now);
    NoUnderflow(s.book, p);
  }

  // The three steps of a checkpoint, each as one fact about the storage it leaves.

  ghost predicate SettledFor(k: Params, s: Store, p: PositionId, l: LockedBalance, a: Accounts, who: Account) {
    p in s.book.owner && s.book.owner[p] == who ==>
      a == Update(k.multiplier, s.accounts, Some(who), s.now, TotalNow(k, s), MidCallBalance(k, s, p, l))
  }

  /** The owner's rewards have been settled. */
  ghost predicate Settled(k: Params, s: Store, p: PositionId, l: LockedBalance, a: Accounts) {
    forall who :: SettledFor(k, s, p, l, a, who)
  }

  ghost predicate SummaryFor(k: Params, locks: Locks, c: Line, epoch: nat, h: GlobalHistory,
                             changes: map<nat, int>, now: nat, supply: nat)
  {
    c == LineOf(k.maxBlock, locks) ==>
      Summarised(k, c, epoch, h, changes, now)
      && GlobalPoint(h, epoch).block == now && GlobalPoint(h, epoch).amount == supply
  }

  /** The global summary stands for the locks at the current block. */
  ghost predicate SummaryNow(k: Params, locks: Locks, epoch: nat, h: GlobalHistory,
                             changes: map<nat, int>, now: nat, supply: nat)
  {
    forall c :: SummaryFor(k, locks, c, epoch, h, changes, now, supply)
  }

  lemma CheckpointAssembled(k: Params, s: Store, s': Store, p: PositionId, l: LockedBalance)
    requires Writable(k, s, p, l) && s'.now == s.now && s'.recorded == s.recorded
    requires Settled(k, s, p, l, s'.accounts)
    requires SummaryNow(k, s.book.locked[p := l], s'.epoch, s'.pointHistory, s'.slopeChanges, s'.now, s'.book.supply)
    requires s'.userPointHistory == WithPoint(k.maxBlock, s.userPointEpoch, s.userPointHistory, p, l, s.now)
    requires BiasOf(k.maxBlock, l, s.now) <= I128_MAX
    ensures Checkpointed(k, s, s', p, l)
  {
    var locks := s.book.locked[p := l];
    assert SettledFor(k, s, p, l, s'.accounts, s.book.owner[p]);
    assert SummaryFor(k, locks, LineOf(k.maxBlock, locks), s'.epoch, s'.pointHistory, s'.slopeChanges,
                      s'.now, s'.book.supply);
  }

  // Part by part: what a call that writes lock l does to the invariant.

  lemma WriteCurve(k: Params, s: Store, s': Store, p: PositionId, l: LockedBalance)
    requires Inv(k, s) && Checkpointed(k, s, s', p, l)
    requires s'.book.locked == s.book.locked[p := l]
    ensures PartOk(k, s', Summary)
  {
    assert PartOk(k, s, Summary);
    assert CheckpointedPart(k, s, s', p, l, Summary) && CheckpointedPart(k, s, s', p, l, Ledger);
    LinesReady(k, s.book.locked, p, l, s.LastPoint().block, s.now);
  }

  lemma WriteHistories(k: Params, s: Store, s': Store, p: PositionId, l: LockedBalance)
    requires Inv(k, s) && Checkpointed(k, s, s', p, l) && l != NO_LOCK
    requires s'.book.locked == s.book.locked[p := l] && s'.book.owner == s.book.owner
    requires s'.book.next == s.book.next
    requires s'.userPointEpoch == WithEpoch(s.userPointEpoch, p)
    ensures PartOk(k, s', Histories)
  {
    assert PartOk(k, s, Histories);
    assert CheckpointedPart(k, s, s', p, l, Histories) && CheckpointedPart(k, s, s', p, l, Ledger);
    assert PositionOk(k, s.book.locked, s.book.owner, s.userPointEpoch, s.userPointHistory, s.now, p);
    forall q, t: nat
      ensures RecordedId(s', q, t)
    {
      assert RecordedId(s, q, t);
    }
    PointsAfterCheckpoint(k, s.book.locked, s.book.owner, s.userPointEpoch, s.userPointHistory, s.now, p, l);
    PastAfterCheckpoint(k, s.book.locked, s.book.owner, s.userPointEpoch, s.userPointHistory, s.recorded, s.now, p, l);
  }

  lemma EraseHistories(k: Params, s: Store, s': Store, p: PositionId)
    requires Inv(k, s) && Checkpointed(k, s, s', p, NO_LOCK)
    requires s'.book.locked == s.book.locked[p := NO_LOCK] && s'.book.owner == s.book.owner - {p}
    requires s'.book.next == s.book.next
    requires s'.userPointEpoch == s.userPointEpoch - {p}
    ensures PartOk(k, s', Histories)
  {
    assert PartOk(k, s, Histories);
    assert CheckpointedPart(k, s, s', p, NO_LOCK, Histories) && CheckpointedPart(k, s, s', p, NO_LOCK, Ledger);
    forall q, t: nat
      ensures RecordedId(s', q, t)
    {
      assert RecordedId(s, q, t);
    }
    PointsAfterRemoval(k, s.book.locked, s.book.owner, s.userPointEpoch, s.userPointHistory, s.now, p);
    PastAfterRemoval(k, s.book.locked, s.book.owner, s.userPointEpoch, s.userPointHistory, s.recorded, s.now, p);
  }

  lemma UpdateRenewable(k: Params, a: Accounts, who: Option<Account>, now: nat, total: nat, balance: nat)
    requires Renewable(k, a.conf)
    ensures Renewable(k, Update(k.multiplier, a, who, now, total, balance).conf)
  {
  }

  lemma WriteRewards(k: Params, s: Store, s': Store, p: PositionId, l: LockedBalance)
    requires Inv(k, s) && Checkpointed(k, s, s', p, l)
    requires s'.book.locked == s.book.locked[p := l] && s'.book.userPositions.Keys == s.book.userPositions.Keys
    requires s'.book.owner == s.book.owner || (s'.book.owner == s.book.owner - {p} && l == NO_LOCK)
    requires forall c :: s.Pool(k)(c) <= s'.Pool(k)(c)
    ensures PartOk(k, s', RewardPool)
  {
    assert PartOk(k, s, RewardPool) && PartOk(k, s, Histories) && PartOk(k, s, Ledger);
    assert CheckpointedPart(k, s, s', p, l, RewardPool) && CheckpointedPart(k, s, s', p, l, Ledger);
    UpdateRenewable(k, s.accounts, Some(s.book.owner[p]), s.now, TotalNow(k, s), MidCallBalance(k, s, p, l));
    CallSolvent(k, s.book, s'.book, s.userPointEpoch, s.userPointHistory, s.now, s.accounts, s.Pool(k), p, l,
                TotalNow(k, s), MidCallBalance(k, s, p, l));
    PoolGrows(k.multiplier, s'.accounts, s'.Balances(k), s'.book.userPositions.Keys, s.Pool(k), s'.Pool(k));
  }

  /** Only one account's lock total or balance has changed, and it is still backed. */
  lemma StillBacked(k: Params, s: Store, s': Store, who: Account)
    requires Inv(k, s) && BackedFor(k, s', who)
    requires who == k.pool ==> Get(s'.book.userLocked, who, 0) == 0
    requires forall u :: u != who ==> Get(s'.book.userLocked, u, 0) == Get(s.book.userLocked, u, 0)
    requires forall u :: u != who ==> Held(s.free, k.token, u) <= Held(s'.free, k.token, u)
    ensures PartOk(k, s', Backing)
  {
    assert PartOk(k, s, Backing);
    forall u
      ensures BackedFor(k, s', u)
    {
      assert BackedFor(k, s, u);
      assert u != who ==> Get(s'.book.userLocked, u, 0) == Get(s.book.userLocked, u, 0);
      assert u != who ==> Held(s.free, k.token, u) <= Held(s'.free, k.token, u);
    }
  }

  /** What a call that adds to a lock, or extends it, leaves behind. */
  ghost predicate Deposited(k: Params, s: Store, s': Store, p: PositionId, value: nat, end: nat) {
    && p in s.book.owner
    && Checkpointed(k, s, s', p, LockedBalance(Get(s.book.locked, p, NO_LOCK).amount + value, end))
    && s'.book == Deposit(s.book, p, value, end) && s'.userPointEpoch == WithEpoch(s.userPointEpoch, p)
    && s'.free == s.free && s'.config == s.config && s'.now == s.now && s'.recorded == s.recorded
  }

  /** A deposit keeps the invariant. */
  lemma DepositInv(k: Params, s: Store, s': Store, p: PositionId, value: nat, end: nat)
    requires Inv(k, s) && Deposited(k, s, s', p, value, end) && 0 < end && s.book.owner[p] != k.pool
    requires DepositError(s.book, Held(s.free, k.token, s.book.owner[p]), p, value).None?
    ensures Inv(k, s')
  {
    var l := LockedBalance(Get(s.book.locked, p, NO_LOCK).amount + value, end);
    assert PartOk(k, s, Backing);
    assert BackedFor(k, s, s.book.owner[p]);
    forall part
      ensures PartOk(k, s', part)
    {
      match part
      case Ledger =>
        assert PartOk(k, s, Ledger);
        DepositSound(s.book, p, value, end, k.maxPositions);
      case Summary => WriteCurve(k, s, s', p, l);
      case Histories => WriteHistories(k, s, s', p, l);
      case Backing => StillBacked(k, s, s', s.book.owner[p]);
      case RewardPool => WriteRewards(k, s, s', p, l);
    }
  }

  lemma DepositMade(k: Params, s: Store, s': Store, p: PositionId, value: nat, l: LockedBalance)
    requires Inv(k, s) && Checkpointed(k, s, s', p, l) && 0 < l.end && s.book.owner[p] != k.pool
    requires l.amount == s.book.locked[p].amount + value && s'.book == Deposit(s.book, p, value, l.end)
    requires s'.userPointEpoch == WithEpoch(s.userPointEpoch, p) && s'.free == s.free && s'.config == s.config
    requires s'.now == s.now && s'.recorded == s.recorded
    requires DepositError(s.book, Held(s.free, k.token, s.book.owner[p]), p, value).None?
    ensures Deposited(k, s, s', p, value, l.end) && Inv(k, s')
  {
    assert l == LockedBalance(Get(s.book.locked, p, NO_LOCK).amount + value, l.end);
    DepositInv(k, s, s', p, value, l.end);
  }
}
