/** Calls that change a lock, on the storage as a value: when they are refused, what they leave behind,
    and that they keep the invariant. */
module LockCalls {
  import opened Primitives
  import opened Sums
  import opened Weeks
  import opened Curve
  import opened Lines
  import opened Voting
  import opened History
  import opened LockLedger
  import opened ExpiryIndex
  import opened Solvency
  import opened Tokens
  import opened EarlyRedeem
  import opened Invariants
  import opened Calls
  import opened State

  // ---- A new position ------------------------------------------------------------------

  /** A line that agrees with a tracked one everywhere is tracked by the same summary. */
  lemma SameLineSummarised(k: Params, c: Line, c': Line, epoch: nat, h: GlobalHistory, changes: map<nat, int>, now: nat)
    requires Summarised(k, c, epoch, h, changes, now) && Replaced(k.maxBlock, c, c', NO_LOCK, NO_LOCK)
    requires Weekly(k.week, c', GlobalPoint(h, epoch).block)
    ensures Summarised(k, c', epoch, h, changes, now)
  {
    var pt := GlobalPoint(h, epoch);
    assert ReplacedAt(k.maxBlock, c, c', NO_LOCK, NO_LOCK, pt.block);
    forall t: nat | t > pt.block
      ensures ChangeRight(c', changes, t)
    {
      assert ReplacedAt(k.maxBlock, c, c', NO_LOCK, NO_LOCK, t) && ChangeRight(c, changes, t);
    }
    if epoch == 0 {
      forall t: nat
        ensures Ended(c', t)
      {
        assert ReplacedAt(k.maxBlock, c, c', NO_LOCK, NO_LOCK, t) && Ended(c, t);
      }
    }
  }

  /** An account without a list has no power. */
  lemma NoListNoPower(k: Params, b: LockBook, now: nat, u: Account)
    requires Sound(b, k.maxPositions) && u !in b.userPositions
    ensures Voting.Balances(k.maxBlock, k.voteWeight, b.locked, b.owner, now)(u) == 0
  {
    var share := Share(OwnerOf(b.owner), PowerTerm(k.maxBlock, k.voteWeight, b.locked, now), u);
    forall p | p in b.locked.Keys
      ensures share(p) == 0
    {
      assert IdOk(b, p) && OnItsList(b, p);
    }
    SumZero(b.locked.Keys, share);
  }

  /** A new, empty position gives nobody any power. */
  lemma CreateBalance(k: Params, b: LockBook, who: Account, now: nat, u: Account)
    requires Sound(b, k.maxPositions) && b.next !in b.owner && b.next !in b.locked
    ensures var b' := AddPosition(b, who);
            var bal := Voting.Balances(k.maxBlock, k.voteWeight, b.locked, b.owner, now)(u);
            var bal' := Voting.Balances(k.maxBlock, k.voteWeight, b'.locked, b'.owner, now)(u);
            bal' == bal && 0 <= bal && (u in b.userPositions || bal == 0)
  {
    var b' := AddPosition(b, who);
    OtherBalance(k.maxBlock, k.voteWeight, b.locked, b.owner, b'.locked, b'.owner, b.next, now, u);
    BalancesNonNeg(k.maxBlock, k.voteWeight, b.locked, b.owner, now, u);
    if u !in b.userPositions {
      NoListNoPower(k, b, now, u);
    }
  }

  lemma CreateRewards(k: Params, s: Store, s': Store, who: Account)
    requires Inv(k, s) && s' == s.(book := AddPosition(s.book, who)) && s.book.next !in s.book.owner
    requires s.book.next !in s.book.locked
    ensures PartOk(k, s', RewardPool)
  {
    assert PartOk(k, s, RewardPool) && PartOk(k, s, Ledger);
    var bal, bal' := s.Balances(k), s'.Balances(k);
    var users, users' := s.book.userPositions.Keys, s'.book.userPositions.Keys;
    forall u
      ensures bal'(u) == bal(u) && 0 <= bal(u) && (u in users || bal(u) == 0)
    {
      CreateBalance(k, s.book, who, s.now, u);
    }
    PowerChangeSolvent(k.multiplier, s.accounts, bal, users, bal', users', s.Pool(k));
    PoolGrows(k.multiplier, s.accounts, bal', users', s.Pool(k), s'.Pool(k));
  }

  /** Taking a new, empty position keeps the invariant. */
  lemma CreateInv(k: Params, s: Store, s': Store, who: Account)
    requires Inv(k, s) && |PositionsOf(s.book, who)| < k.maxPositions
    requires s' == s.(book := AddPosition(s.book, who))
    ensures Inv(k, s') && s.book.next !in s.book.owner && s.book.next !in s.userPointEpoch
  {
    var p := s.book.next;
    assert PartOk(k, s, Ledger) && PartOk(k, s, Histories);
    AddPositionSound(s.book, who, k.maxPositions);
    assert IdOk(s.book, p);
    assert PositionOk(k, s.book.locked, s.book.owner, s.userPointEpoch, s.userPointHistory, s.now, p);
    forall part
      ensures PartOk(k, s', part)
    {
      match part
      case Ledger =>
      case Summary => CreateSummary(k, s, s', who);
      case Histories => CreateHistories(k, s, s', who);
      case Backing =>
        assert PartOk(k, s, Backing);
        forall u
          ensures BackedFor(k, s', u)
        {
          assert BackedFor(k, s, u);
        }
      case RewardPool => CreateRewards(k, s, s', who);
    }
  }

  lemma CreateSummary(k: Params, s: Store, s': Store, who: Account)
    requires Inv(k, s) && s' == s.(book := AddPosition(s.book, who)) && s.book.next !in s.book.locked
    ensures PartOk(k, s', Summary)
  {
    assert PartOk(k, s, Summary);
    LineOfReplaced(k.maxBlock, s.book.locked, s.book.next, NO_LOCK);
    LineOfWeekly(k.maxBlock, k.week, s'.book.locked, s.LastPoint().block);
    SameLineSummarised(k, LineOf(k.maxBlock, s.book.locked), LineOf(k.maxBlock, s'.book.locked),
                       s.epoch, s.pointHistory, s.slopeChanges, s.now);
  }

  lemma CreateHistories(k: Params, s: Store, s': Store, who: Account)
    requires Inv(k, s) && s' == s.(book := AddPosition(s.book, who)) && s.book.next !in s.book.owner
    requires s.book.next !in s.book.locked
    ensures PartOk(k, s', Histories)
  {
    var p := s.book.next;
    assert PartOk(k, s, Histories);
    PointsAfterCreation(k, s.book.locked, s.book.owner, s.userPointEpoch, s.userPointHistory, s.now, p, who);
    forall q, t: nat
      ensures RecordedId(s', q, t)
      ensures RecordOk(k.voteWeight, s'.book.locked, s'.book.owner, s.userPointEpoch, s.userPointHistory,
                       s.recorded, s.now, q, t)
    {
      assert RecordedId(s, q, t);
      assert RecordOk(k.voteWeight, s.book.locked, s.book.owner, s.userPointEpoch, s.userPointHistory,
                      s.recorded, s.now, q, t);
    }
  }

  // ---- Withdrawal ----------------------------------------------------------------------

  /** A withdrawal, with or without a fee paid from the released amount, keeps the invariant. */
  lemma WithdrawInv(k: Params, s: Store, s': Store, p: PositionId)
    requires Inv(k, s) && Checkpointed(k, s, s', p, NO_LOCK)
    requires s'.book == Disown(Empty(s.book, p), p) && s'.userPointEpoch == s.userPointEpoch - {p}
    requires BackedFor(k, s', s.book.owner[p])
    requires forall u :: u != s.book.owner[p] ==> Held(s.free, k.token, u) <= Held(s'.free, k.token, u)
    requires forall c :: s.Pool(k)(c) <= s'.Pool(k)(c)
    ensures Inv(k, s')
  {
    var who := s.book.owner[p];
    assert PartOk(k, s, Ledger) && PartOk(k, s, Backing);
    assert who in s.book.userPositions by { assert OnItsList(s.book, p); }
    forall part
      ensures PartOk(k, s', part)
    {
      match part
      case Ledger =>
        EmptySound(s.book, p, k.maxPositions);
        DisownSound(Empty(s.book, p), p, k.maxPositions);
      case Summary => WriteCurve(k, s, s', p, NO_LOCK);
      case Histories => EraseHistories(k, s, s', p);
      case Backing => StillBacked(k, s, s', who);
      case RewardPool => WriteRewards(k, s, s', p, NO_LOCK);
    }
  }

  /** What a withdrawal with the given fee leaves behind. */
  ghost predicate Withdrawn(k: Params, s: Store, s': Store, p: PositionId, fee: nat) {
    && p in s.book.owner && Checkpointed(k, s, s', p, NO_LOCK)
    && s'.book == Disown(Empty(s.book, p), p) && s'.userPointEpoch == s.userPointEpoch - {p}
    && (fee <= Held(s.free, k.token, s.book.owner[p]) || s.book.owner[p] == k.buyBack)
    && s'.free == Sent(s.free, k.token, s.book.owner[p], k.buyBack, fee)
    && s'.config == s.config && s'.now == s.now && s'.recorded == s.recorded
  }

  /** A withdrawal keeps the invariant: its fee is at most what it releases. */
  lemma WithdrawnInv(k: Params, s: Store, s': Store, p: PositionId, fee: nat)
    requires Inv(k, s) && Withdrawn(k, s, s', p, fee) && fee <= s.book.locked[p].amount
    requires fee == 0 || s.book.owner[p] != k.pool
    ensures Inv(k, s')
  {
    var who := s.book.owner[p];
    assert PartOk(k, s, Ledger) && PartOk(k, s, Backing);
    assert BackedFor(k, s, who);
    NoUnderflow(s.book, p);
    SentGrows(s.free, k.token, who, k.buyBack, fee);
    WithdrawInv(k, s, s', p);
  }

  lemma OnOwnList(k: Params, s: Store, p: PositionId)
    requires Inv(k, s) && p in s.book.owner
    ensures p in PositionsOf(s.book, s.book.owner[p])
  {
    assert PartOk(k, s, Ledger);
    assert OnItsList(s.book, p);
  }

  /** A withdrawal after its checkpoint, with the empty position still in its owner's hands. */
  ghost predicate Released(k: Params, s: Store, s1: Store, p: PositionId, fee: nat) {
    && Checkpointed(k, s, s1, p, NO_LOCK) && s1.book == Empty(s.book, p)
    && s1.userPointEpoch == WithEpoch(s.userPointEpoch, p)
    && (fee <= Held(s.free, k.token, s.book.owner[p]) || s.book.owner[p] == k.buyBack)
    && s1.free == Sent(s.free, k.token, s.book.owner[p], k.buyBack, fee)
    && s1.config == s.config && s1.now == s.now && s1.recorded == s.recorded
  }

  /** After the checkpoint the position is given up. */
  lemma WithdrawalDone(k: Params, s: Store, s1: Store, s': Store, p: PositionId, fee: nat)
    requires Released(k, s, s1, p, fee)
    requires s' == s1.(book := Disown(s1.book, p), userPointEpoch := s1.userPointEpoch - {p})
    ensures Withdrawn(k, s, s', p, fee)
  {
    forall part | part != Backing
      ensures CheckpointedPart(k, s, s', p, NO_LOCK, part)
    {
      assert CheckpointedPart(k, s, s1, p, NO_LOCK, part);
    }
    assert WithEpoch(s.userPointEpoch, p) - {p} == s.userPointEpoch - {p};
  }

  lemma HasLock(k: Params, s: Store, p: PositionId)
    requires Inv(k, s) && p in s.book.owner
    ensures p in s.book.locked
  {
    assert PartOk(k, s, Ledger);
    assert IdOk(s.book, p);
  }

  /** After a checkpoint the next one in the same block has nothing to catch up with. */
  lemma StillReaches(k: Params, s: Store, s': Store, p: PositionId, l: LockedBalance)
    requires Checkpointed(k, s, s', p, l)
    ensures s'.now == s.now && Reaches(k, s'.epoch, s'.pointHistory, s'.now)
  {
    assert CheckpointedPart(k, s, s', p, l, Summary) && CheckpointedPart(k, s, s', p, l, Ledger);
    WeekFloorBounds(k.week, s.now);
  }

  /** The fee of a withdrawal is free to be paid. */
  lemma FeeCovered(k: Params, s: Store, p: PositionId, fee: nat)
    requires Inv(k, s) && p in s.book.owner && p in s.book.locked && fee <= s.book.locked[p].amount
    ensures var who := s.book.owner[p];
      Get(Empty(s.book, p).userLocked, who, 0) + fee <= Held(s.free, k.token, who)
  {
    assert PartOk(k, s, Ledger) && PartOk(k, s, Backing);
    assert BackedFor(k, s, s.book.owner[p]);
    NoUnderflow(s.book, p);
  }

  /** An early redemption costs its owner the commission on the amount. */
  ghost predicate Redeemed(k: Params, s: Store, s': Store, p: PositionId) {
    && p in s.book.locked && s.now < s.book.locked[p].end
    && RedeemCommission(k.oneYear, k.fiveYears, s.book.locked[p].end - s.now).Ok?
    && var rate := RedeemCommission(k.oneYear, k.fiveYears, s.book.locked[p].end - s.now).value;
       Withdrawn(k, s, s', p, Fee(Some(rate), s.book.locked[p].amount))
  }

  // ---- Why a call is refused -----------------------------------------------------------

  /** An end is refused if it is too near or too far. */
  predicate EndRefused(k: Params, s: Store, end: nat) {
    end < s.config.minBlock + s.now || NextWeek(k.week, k.maxBlock + s.now) < end
  }

  predicate ListFull(s: Store, end: nat) {
    BLOCK_CAPACITY <= |Listed(s.expiring, end)|
  }

  /** Why a new position is not admitted, before anything is deposited in it. */
  function AdmitError(k: Params, s: Store, who: Account, value: nat, end: nat): Option<Error> {
    if k.maxPositions <= |PositionsOf(s.book, who)| then Some(ExceedsMaxPositions)
    else if value < s.config.minMint then Some(BelowMinimumMint)
    else if EndRefused(k, s, end) then Some(ArgumentsError)
    else if ListFull(s, end) then Some(ExceedsMaxPositions)
    else None
  }

  function CreateError(k: Params, s: Store, who: Account, value: nat, unlockTime: nat): Option<Error> {
    var e := AdmitError(k, s, who, value, NextWeek(k.week, unlockTime + s.now));
    if e.Some? then e
    else DepositError(AddPosition(s.book, who), Held(s.free, k.token, who), s.book.next, value)
  }

  function ExtendError(k: Params, s: Store, who: Account, p: PositionId, unlockTime: nat): Option<Error> {
    var lock := Get(s.book.locked, p, NO_LOCK);
    var end := NextWeek(k.week, unlockTime + lock.end);
    if p !in PositionsOf(s.book, who) then Some(LockNotExist)
    else if lock.end <= s.now then Some(Expired)
    else if EndRefused(k, s, end) then Some(ArgumentsError)
    else if lock.amount == 0 then Some(LockNotExist)
    else if ListFull(s, end) then Some(ExceedsMaxPositions)
    else None
  }

  function TopUpError(k: Params, s: Store, who: Account, p: PositionId, value: nat): Option<Error> {
    var lock := Get(s.book.locked, p, NO_LOCK);
    if p !in PositionsOf(s.book, who) then Some(LockNotExist)
    else if value < s.config.minMint then Some(BelowMinimumMint)
    else if lock.amount == 0 then Some(LockNotExist)
    else if lock.end <= s.now then Some(Expired)
    else if p in s.book.owner then DepositError(s.book, Held(s.free, k.token, who), p, value)
    else None
  }

  function WithdrawError(s: Store, who: Account, p: PositionId): Option<Error> {
    if p !in PositionsOf(s.book, who) then Some(LockNotExist)
    else if s.now < Get(s.book.locked, p, NO_LOCK).end then Some(Expired)
    else None
  }

  function RedeemError(k: Params, s: Store, who: Account, p: PositionId): Option<Error> {
    var lock := Get(s.book.locked, p, NO_LOCK);
    if p !in PositionsOf(s.book, who) then Some(LockNotExist)
    else if lock.end <= s.now then Some(Expired)
    else if RedeemCommission(k.oneYear, k.fiveYears, lock.end - s.now).Err? then Some(Overflow)
    else None
  }

  // ---- What the calls do to the index --------------------------------------------------

  lemma OwnsListed(k: Params, s: Store, who: Account, p: PositionId)
    requires Inv(k, s) && p in PositionsOf(s.book, who)
    ensures p in s.book.owner && s.book.owner[p] == who && p in s.book.locked
    ensures p in s.userPointEpoch || s.book.locked[p] == NO_LOCK
    ensures OnWeek(k.week, s.book.locked[p].end) && s.book.locked[p].end <= s.now + k.Span()
  {
    assert PartOk(k, s, Ledger) && PartOk(k, s, Histories) && PartOk(k, s, Summary);
    assert ListOk(s.book, k.maxPositions, who) && IdOk(s.book, p);
    assert PositionOk(k, s.book.locked, s.book.owner, s.userPointEpoch, s.userPointHistory, s.now, p);
  }

  /** The storage with another index. */
  ghost function Reindexed(s: Store, s': Store): Store {
    s.(expiring := s'.expiring, nextExpiring := s'.nextExpiring)
  }

  /** A deposit does not depend on the index. */
  lemma DepositedAnyIndex(k: Params, s: Store, s1: Store, s': Store, p: PositionId, value: nat, end: nat)
    requires Deposited(k, s1, s', p, value, end) && s1 == Reindexed(s, s1)
    ensures Deposited(k, s, s', p, value, end)
  {
    CheckpointedAnyIndex(k, s, s1, s', p, LockedBalance(Get(s.book.locked, p, NO_LOCK).amount + value, end));
  }

  lemma WithdrawnAnyIndex(k: Params, s: Store, s1: Store, s': Store, p: PositionId, fee: nat)
    requires Withdrawn(k, s1, s', p, fee) && s1 == Reindexed(s, s1)
    ensures Withdrawn(k, s, s', p, fee)
  {
    CheckpointedAnyIndex(k, s, s1, s', p, NO_LOCK);
  }

  lemma CheckpointedAnyIndex(k: Params, s: Store, s1: Store, s': Store, p: PositionId, l: LockedBalance)
    requires Checkpointed(k, s1, s', p, l) && s1 == Reindexed(s, s1)
    ensures Checkpointed(k, s, s', p, l)
  {
    forall part | part != Backing
      ensures CheckpointedPart(k, s, s', p, l, part)
    {
      assert CheckpointedPart(k, s1, s', p, l, part);
    }
  }

  /** A new lock's end is a week boundary ahead and within reach. */
  lemma NewEndWritable(k: Params, s: Store, from: nat, unlockTime: nat)
    requires s.now <= from
    requires !EndRefused(k, s, NextWeek(k.week, unlockTime + from))
    ensures var end := NextWeek(k.week, unlockTime + from);
      OnWeek(k.week, end) && from < end <= s.now + k.Span()
    ensures NextWeek(k.week, k.maxBlock + s.now) <= s.now + k.Span()
  {
    WeekFloorBounds(k.week, unlockTime + from);
    WeekFloorBounds(k.week, k.maxBlock + s.now);
  }

  /** Only owned positions are listed. */
  lemma NotListed(s: Store, p: PositionId, end: nat)
    requires IndexOk(s) && p !in s.book.owner
    ensures p !in Listed(s.expiring, end)
  {
    assert EntryRight(s.book.locked, s.book.owner, s.expiring, end, p);
  }

  /** The storage with a position listed under its end. */
  function NewlyListed(s: Store, p: PositionId, end: nat): Store {
    s.(expiring := Record(s.expiring, p, end), nextExpiring := CursorAfter(s.nextExpiring, end))
  }

  /** The storage with a new position that is already listed under its end. */
  function Admitted(s: Store, who: Account, end: nat): Store {
    NewlyListed(s.(book := AddPosition(s.book, who)), s.book.next, end)
  }

  lemma AdmittedWritable(k: Params, s: Store, who: Account, value: nat, unlockTime: nat)
    requires Inv(k, s)
    requires AdmitError(k, s, who, value, NextWeek(k.week, unlockTime + s.now)).None?
    ensures var end := NextWeek(k.week, unlockTime + s.now); var s1 := Admitted(s, who, end);
      && end != 0 && Writable(k, s1, s.book.next, LockedBalance(value, end))
      && s1.book.owner[s.book.next] == who && s1.book.locked[s.book.next] == NO_LOCK
  {
    NewEndWritable(k, s, s.now, unlockTime);
    CreateInv(k, s, s.(book := AddPosition(s.book, who)), who);
  }

  /** An admitted position can take its deposit, which is refused just when the call is. */
  lemma AdmittedReady(k: Params, s: Store, s1: Store, who: Account, value: nat, unlockTime: nat, end: nat)
    requires Inv(k, s) && end == NextWeek(k.week, unlockTime + s.now) && s1 == Admitted(s, who, end)
    requires AdmitError(k, s, who, value, end).None?
    ensures var p := s.book.next;
      && p in s1.book.owner && s1.book.owner[p] == who && Get(s1.book.locked, p, NO_LOCK) == NO_LOCK
      && NewEnd(NO_LOCK, end) == end != 0 && Writable(k, s1, p, LockedBalance(0 + value, end))
      && CreateError(k, s, who, value, unlockTime) == DepositError(s1.book, Held(s1.free, k.token, who), p, value)
  {
    AdmittedWritable(k, s, who, value, unlockTime);
  }

  /** The effect of creating a lock. */
  ghost predicate Created(k: Params, s: Store, s': Store, who: Account, value: nat, unlockTime: nat) {
    var end := NextWeek(k.week, unlockTime + s.now);
    && Deposited(k, s.(book := AddPosition(s.book, who)), s', s.book.next, value, end)
    && s'.expiring == Record(s.expiring, s.book.next, end) && s'.nextExpiring == CursorAfter(s.nextExpiring, end)
  }

  lemma CreatedHere(k: Params, s: Store, s': Store, who: Account, value: nat, unlockTime: nat)
    requires var end := NextWeek(k.week, unlockTime + s.now);
      Deposited(k, Admitted(s, who, end), s', s.book.next, value, end)
      && s'.expiring == Admitted(s, who, end).expiring && s'.nextExpiring == Admitted(s, who, end).nextExpiring
    ensures Created(k, s, s', who, value, unlockTime)
  {
    var end := NextWeek(k.week, unlockTime + s.now);
    var s1 := s.(book := AddPosition(s.book, who));
    DepositedAnyIndex(k, s1, Admitted(s, who, end), s', s.book.next, value, end);
  }

  /** After a deposit the next checkpoint in the same block has nothing to catch up with. */
  lemma DepositReaches(k: Params, s: Store, s': Store, p: PositionId, value: nat, end: nat)
    requires Deposited(k, s, s', p, value, end)
    ensures Reaches(k, s'.epoch, s'.pointHistory, s'.now)
  {
    StillReaches(k, s, s', p, LockedBalance(Get(s.book.locked, p, NO_LOCK).amount + value, end));
  }

  /** A new lock is listed where it belongs, and automatic withdrawal will not miss it. */
  lemma CreatedIndex(k: Params, s: Store, s': Store, who: Account, value: nat, unlockTime: nat)
    requires Inv(k, s) && IndexOk(s) && Created(k, s, s', who, value, unlockTime)
    requires CreateError(k, s, who, value, unlockTime).None?
    ensures IndexOk(s') && Reaches(k, s'.epoch, s'.pointHistory, s'.now)
    ensures CursorSound(s.expiring, s.nextExpiring) ==> CursorSound(s'.expiring, s'.nextExpiring)
  {
    var p, end := s.book.next, NextWeek(k.week, unlockTime + s.now);
    var l := LockedBalance(value, end);
    CreateInv(k, s, s.(book := AddPosition(s.book, who)), who);
    CreateAgrees(s.book.locked, s.book.owner, s.expiring, p, who, l);
    assert s'.book.locked == s.book.locked[p := l];
    assert s'.book.owner == s.book.owner[p := who];
    DepositReaches(k, s.(book := AddPosition(s.book, who)), s', p, value, end);
    if CursorSound(s.expiring, s.nextExpiring) {
      RecordCursor(s.expiring, p, end, s.nextExpiring);
    }
  }

  /** A new end lies ahead, so nothing that has gone by comes before the cursor again. */
  lemma CreatedOnward(k: Params, s: Store, s': Store, who: Account, value: nat, unlockTime: nat)
    requires Created(k, s, s', who, value, unlockTime) && CreateError(k, s, who, value, unlockTime).None?
    ensures Onward(s.now, s.nextExpiring, s'.now, s'.nextExpiring)
  {
    NewEndWritable(k, s, s.now, unlockTime);
  }

  /** The storage with a position moved to the list of its new end. */
  function Relisted(s: Store, p: PositionId, end0: nat, end: nat): Store {
    s.(expiring := Record(Unrecord(s.expiring, p, end0), p, end), nextExpiring := CursorAfter(s.nextExpiring, end))
  }

  lemma ListedElsewhere(s: Store, p: PositionId, end: nat)
    requires IndexOk(s) && p in s.book.locked && s.book.locked[p].end != end
    ensures p !in Listed(s.expiring, end)
  {
    assert EntryRight(s.book.locked, s.book.owner, s.expiring, end, p);
  }

  lemma ExtendWritable(k: Params, s: Store, p: PositionId, unlockTime: nat)
    requires Inv(k, s) && p in s.book.owner && p in s.book.locked && s.now < s.book.locked[p].end
    requires !EndRefused(k, s, NextWeek(k.week, unlockTime + s.book.locked[p].end))
    ensures var end := NextWeek(k.week, unlockTime + s.book.locked[p].end);
      && s.book.locked[p].end < end
      && Writable(k, Relisted(s, p, s.book.locked[p].end, end), p, LockedBalance(s.book.locked[p].amount + 0, end))
    ensures DepositError(s.book, Held(s.free, k.token, s.book.owner[p]), p, 0).None?
  {
    NewEndWritable(k, s, s.book.locked[p].end, unlockTime);
    assert PartOk(k, s, Ledger);
    NoUnderflow(s.book, p);
  }

  /** The effect of topping up a lock. */
  ghost predicate ToppedUp(k: Params, s: Store, s': Store, p: PositionId, value: nat) {
    && Deposited(k, s, s', p, value, Get(s.book.locked, p, NO_LOCK).end)
    && s'.expiring == s.expiring && s'.nextExpiring == s.nextExpiring
    && 0 < Get(s.book.locked, p, NO_LOCK).amount
  }

  /** The effect of extending a lock. */
  ghost predicate Extended(k: Params, s: Store, s': Store, p: PositionId, unlockTime: nat) {
    var end0 := Get(s.book.locked, p, NO_LOCK).end;
    var end := NextWeek(k.week, unlockTime + end0);
    && Deposited(k, s, s', p, 0, end) && end0 < end
    && s'.expiring == Record(Unrecord(s.expiring, p, end0), p, end)
    && s'.nextExpiring == CursorAfter(s.nextExpiring, end)
  }

  lemma ExtendedHere(k: Params, s: Store, s1: Store, s': Store, p: PositionId, unlockTime: nat)
    requires p in s.book.locked && s.book.locked[p].end < NextWeek(k.week, unlockTime + s.book.locked[p].end)
    requires s1 == Relisted(s, p, s.book.locked[p].end, NextWeek(k.week, unlockTime + s.book.locked[p].end))
    requires Deposited(k, s1, s', p, 0, NextWeek(k.week, unlockTime + s.book.locked[p].end))
    requires s'.expiring == s1.expiring && s'.nextExpiring == s1.nextExpiring
    ensures Extended(k, s, s', p, unlockTime)
  {
    DepositedAnyIndex(k, s, s1, s', p, 0, NextWeek(k.week, unlockTime + s.book.locked[p].end));
  }

  /** An extended lock moves to its new place in the index. */
  lemma ExtendedIndex(k: Params, s: Store, s': Store, p: PositionId, unlockTime: nat)
    requires IndexOk(s) && Extended(k, s, s', p, unlockTime) && p in s.book.locked
    requires !ListFull(s, NextWeek(k.week, unlockTime + s.book.locked[p].end))
    ensures IndexOk(s') && Reaches(k, s'.epoch, s'.pointHistory, s'.now)
    ensures CursorSound(s.expiring, s.nextExpiring) ==> CursorSound(s'.expiring, s'.nextExpiring)
  {
    var end0, end := s.book.locked[p].end, NextWeek(k.week, unlockTime + s.book.locked[p].end);
    ExtendAgrees(s.book.locked, s.book.owner, s.expiring, p, LockedBalance(s.book.locked[p].amount, end));
    assert s'.book.locked == s.book.locked[p := LockedBalance(s.book.locked[p].amount, end)];
    DepositReaches(k, s, s', p, 0, end);
    if CursorSound(s.expiring, s.nextExpiring) {
      UnrecordCursor(s.expiring, p, end0, s.nextExpiring);
      RecordCursor(Unrecord(s.expiring, p, end0), p, end, s.nextExpiring);
    }
  }

  lemma ToppedUpIndex(k: Params, s: Store, s': Store, p: PositionId, value: nat)
    requires IndexOk(s) && ToppedUp(k, s, s', p, value) && p in s.book.locked
    ensures IndexOk(s') && Reaches(k, s'.epoch, s'.pointHistory, s'.now)
  {
    var l := LockedBalance(s.book.locked[p].amount + value, s.book.locked[p].end);
    TopUpAgrees(s.book.locked, s.book.owner, s.expiring, p, l);
    assert s'.book.locked == s.book.locked[p := l];
    DepositReaches(k, s, s', p, value, s.book.locked[p].end);
  }

  lemma WithdrawnIndex(k: Params, s: Store, s': Store, p: PositionId, fee: nat)
    requires IndexOk(s) && Withdrawn(k, s, s', p, fee)
    requires s'.expiring == Unrecord(s.expiring, p, s.book.locked[p].end)
    ensures IndexOk(s')
  {
    WithdrawAgrees(s.book.locked, s.book.owner, s.expiring, p);
    assert s'.book.locked == s.book.locked[p := NO_LOCK];
  }
}
