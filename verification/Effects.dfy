/** What the calls of the bbBNC pallet do to tokens, locks and rewards, and which of them are accepted, in amounts and
    blocks. */
module Effects {
  import opened Primitives
  import opened Sums
  import opened Weeks
  import opened Curve
  import opened Voting
  import opened History
  import opened LockLedger
  import opened ExpiryIndex
  import opened Rewards
  import opened Solvency
  import opened Notify
  import opened Tokens
  import opened EarlyRedeem
  import opened Invariants
  import opened Calls
  import opened State
  import opened LockCalls
  import opened RewardCalls
  import opened Headroom
  import opened Guarantees
  import opened Forfeits

  // ---- Locks ---------------------------------------------------------------------------

  /** A position has the same owner and the same lock in both. */
  predicate SamePlace(b: LockBook, b': LockBook, q: PositionId) {
    && (q in b.owner <==> q in b'.owner) && (q in b.owner ==> b'.owner[q] == b.owner[q])
    && (q in b.locked <==> q in b'.locked) && (q in b.locked ==> b'.locked[q] == b.locked[q])
  }

  /** An account has the same positions and the same amount locked in both. */
  predicate SameAccount(b: LockBook, b': LockBook, u: Account) {
    && Get(b'.userPositions, u, []) == Get(b.userPositions, u, [])
    && Get(b'.userLocked, u, 0) == Get(b.userLocked, u, 0)
  }

  /** Only position p and the account who have changed. */
  ghost predicate OnlyChanged(b: LockBook, b': LockBook, p: PositionId, who: Account) {
    (forall q :: q != p ==> SamePlace(b, b', q)) && forall u :: u != who ==> SameAccount(b, b', u)
  }

  /** A new lock: its amount is locked until the end of the week after the time asked for. */
  lemma CreateEffect(k: Params, s: Store, s': Store, who: Account, value: nat, unlockTime: nat)
    requires Created(k, s, s', who, value, unlockTime)
    ensures var p := s.book.next;
      && p in s'.book.owner && s'.book.owner[p] == who && p in s'.book.locked
      && s'.book.locked[p] == LockedBalance(value, ((unlockTime + s.now) / k.week + 1) * k.week)
      && Get(s'.book.userPositions, who, []) == Get(s.book.userPositions, who, []) + [p]
      && s'.book.next == p + 1 && OnlyChanged(s.book, s'.book, p, who)
    ensures s'.book.supply == s.book.supply + value
    ensures Get(s'.book.userLocked, who, 0) == Get(s.book.userLocked, who, 0) + value
    ensures s'.free == s.free && s'.now == s.now && s'.config == s.config
  {
    WeekFloorIsDivision(k.week, unlockTime + s.now);
  }

  /** An extended lock: nothing but its end has changed. */
  lemma ExtendEffect(k: Params, s: Store, s': Store, p: PositionId, unlockTime: nat)
    requires Extended(k, s, s', p, unlockTime) && p in s.book.locked
    ensures s'.book == s.book.(locked := s'.book.locked) && OnlyChanged(s.book, s'.book, p, s.book.owner[p])
    ensures p in s'.book.locked
    ensures s'.book.locked[p]
         == LockedBalance(s.book.locked[p].amount, ((unlockTime + s.book.locked[p].end) / k.week + 1) * k.week)
    ensures s'.free == s.free && s'.now == s.now && s'.config == s.config
  {
    WeekFloorIsDivision(k.week, unlockTime + s.book.locked[p].end);
  }

  /** A lock that has been topped up: its end is the same. */
  lemma TopUpEffect(k: Params, s: Store, s': Store, p: PositionId, value: nat)
    requires ToppedUp(k, s, s', p, value) && p in s.book.locked
    ensures var who, lock := s.book.owner[p], s.book.locked[p];
      && p in s'.book.locked && s'.book.locked[p] == LockedBalance(lock.amount + value, lock.end)
      && s'.book.owner == s.book.owner && s'.book.userPositions == s.book.userPositions
      && s'.book.next == s.book.next && OnlyChanged(s.book, s'.book, p, who)
      && Get(s'.book.userLocked, who, 0) == Get(s.book.userLocked, who, 0) + value
    ensures s'.book.supply == s.book.supply + value
    ensures s'.free == s.free && s'.now == s.now && s'.config == s.config
  {
  }

  /** A position that has been paid out is gone, and what was in it is no longer locked. */
  lemma WithdrawEffect(k: Params, s: Store, s': Store, p: PositionId, fee: nat)
    requires Inv(k, s) && Withdrawn(k, s, s', p, fee)
    ensures var who := s.book.owner[p];
      && p in s.book.locked && p !in s'.book.owner && p in s'.book.locked && s'.book.locked[p] == LockedBalance(0, 0)
      && s'.book.supply + s.book.locked[p].amount == s.book.supply && s'.book.next == s.book.next
      && Get(s'.book.userLocked, who, 0) + s.book.locked[p].amount == Get(s.book.userLocked, who, 0)
      && (forall q :: q in Get(s'.book.userPositions, who, []) <==> q in Get(s.book.userPositions, who, []) && q != p)
      && OnlyChanged(s.book, s'.book, p, who)
    ensures s'.now == s.now && s'.config == s.config && (fee == 0 ==> s'.free == s.free)
  {
    assert PartOk(k, s, Ledger);
    NoUnderflow(s.book, p);
    OnePartition(k, s, s.book.owner[p], p);
    FilterMeaning(PositionsOf(s.book, s.book.owner[p]), p);
  }

  // ---- Early redemption ----------------------------------------------------------------

  lemma FeeOfRate(d: pos, n: nat, rate: nat, amount: nat, x: nat)
    requires d * d * rate <= ONE * (n * n) < d * d * (rate + 3) && ONE * x <= rate * amount < ONE * x + ONE
    ensures d * d * x <= n * n * amount
    ensures ONE * (n * n * amount) <= d * d * (ONE * (x + 1) + 3 * amount)
  {
    var dd, nn := d * d, n * n;
    MulMono(ONE * x, rate * amount, dd);
    MulMono(dd * rate, ONE * nn, amount);
    assert dd * (rate * amount) == amount * (dd * rate) && amount * (ONE * nn) == ONE * (nn * amount);
    assert dd * (ONE * x) == ONE * (dd * x);
    CancelFactor(ONE, dd * x, nn * amount);
    MulMono(ONE * nn, dd * (rate + 3), amount);
    assert amount * (dd * (rate + 3)) == dd * (rate * amount + 3 * amount);
    MulMono(rate * amount + 3 * amount, ONE * (x + 1) + 3 * amount, dd);
  }

  lemma FeeIs(oneYear: nat, fiveYears: pos, left: nat, amount: nat)
    requires RedeemCommission(oneYear, fiveYears, left).Ok?
    ensures var n, x := left + oneYear, Fee(Some(RedeemCommission(oneYear, fiveYears, left).value), amount);
      && x <= amount && (fiveYears <= n ==> x == amount)
      && (n < fiveYears ==> fiveYears * fiveYears * x <= n * n * amount)
      && (n < fiveYears ==> ONE * (n * n * amount) <= fiveYears * fiveYears * (ONE * (x + 1) + 3 * amount))
  {
    var rate := RedeemCommission(oneYear, fiveYears, left).value;
    CommissionSquare(oneYear, fiveYears, left);
    CommissionMonotone(oneYear, fiveYears, left, left);
    FeeBound(Some(rate), amount);
    MulDivBound(rate * amount, ONE);
    if fiveYears <= left + oneYear {
      DivExact(amount, ONE);
    } else {
      FeeOfRate(fiveYears, left + oneYear, rate, amount, Fee(Some(rate), amount));
    }
  }

  /** An early redemption moves its fee to the buy-back account and nothing else: the whole amount if the blocks left
      and one year make five years, and otherwise the square of their part of five years of it, but for rounding. */
  lemma RedeemEffect(k: Params, s: Store, s': Store, p: PositionId)
    requires Inv(k, s) && Redeemed(k, s, s', p) && s.book.owner[p] != k.buyBack
    requires RedeemFits(k, s, s.book.owner[p], p)
    ensures var who, lock := s.book.owner[p], s.book.locked[p];
      var n, x := lock.end - s.now + k.oneYear, Held(s'.free, k.token, k.buyBack) - Held(s.free, k.token, k.buyBack);
      && 0 <= x <= lock.amount && Held(s.free, k.token, who) == Held(s'.free, k.token, who) + x
      && (k.fiveYears <= n ==> x == lock.amount)
      && (n < k.fiveYears ==> k.fiveYears * k.fiveYears * x <= n * n * lock.amount)
      && (n < k.fiveYears ==>
          ONE * (n * n * lock.amount) <= k.fiveYears * k.fiveYears * (ONE * (x + 1) + 3 * lock.amount))
    ensures forall c, u :: c != k.token || (u != s.book.owner[p] && u != k.buyBack) ==>
      Held(s'.free, c, u) == Held(s.free, c, u)
  {
    var lock := s.book.locked[p];
    var rate := RedeemCommission(k.oneYear, k.fiveYears, lock.end - s.now).value;
    FeeIs(k.oneYear, k.fiveYears, lock.end - s.now, lock.amount);
    SentMoves(s.free, k.token, s.book.owner[p], k.buyBack, Fee(Some(rate), lock.amount));
  }

  // ---- Rewards -------------------------------------------------------------------------

  /** An account has been credited with all that has accrued up to the last update. */
  predicate PaidUp(a: Accounts, who: Account, c: Currency) {
    Get(Get(a.paid, who, map[]), c, 0) == Get(a.conf.rewardPerToken, c, 0)
  }

  /** What has been earned is the share of power in the total of what has been paid out: not more, and less only by the
      rounding of the reward per token and of the credit. */
  predicate IsShare(mult: int, paidOut: int, power: int, total: int, earned: int) {
    mult * (total * earned) <= mult * (power * paidOut) <= mult * (total * (earned + 1)) + power * total
  }

  lemma PendingIsShare(mult: pos, conf: IncentiveConfig, now: nat, total: pos, b: nat, c: Currency, elapsed: nat)
    requires elapsed == (if now < conf.periodFinish then now else conf.periodFinish) - conf.lastUpdateTime
    requires Get(conf.rewardPerToken, c, 0) + elapsed * Get(conf.rewardRate, c, 0) * mult / total <= U128_MAX
    ensures IsShare(mult, elapsed * Get(conf.rewardRate, c, 0), b, total,
                    Pending(mult, Accrue(mult, conf, now, total).rewardPerToken, conf.rewardPerToken, b, c))
  {
    FairShare(mult, conf, now, total, b, c, elapsed);
  }

  lemma EarnedIs(k: Params, s: Store, who: Account, c: Currency) returns (earned: nat)
    requires Inv(k, s) && PaidUp(s.accounts, who, c)
    ensures Due(Updated(k, s, Some(who)), who, c) == Due(s, who, c) + earned
    ensures earned == Pending(k.multiplier, PerToken(k, s), s.accounts.conf.rewardPerToken,
                              CreditedNow(k, s, Some(who)), c)
  {
    StoredByUpdate(k, s, who, CreditedNow(k, s, Some(who)), c);
    earned := Pending(k.multiplier, PerToken(k, s), s.accounts.conf.rewardPerToken, CreditedNow(k, s, Some(who)), c);
  }

  /** A reward update credits an account that was paid up at the last one with its share, by voting power, of what the
      elapsed blocks of the round have paid out, but for rounding. */
  lemma EarnsShare(k: Params, s: Store, who: Account, c: Currency, elapsed: nat)
    requires Inv(k, s) && PaidUp(s.accounts, who, c) && 0 < TotalNow(k, s)
    requires elapsed == (if s.now < s.accounts.conf.periodFinish then s.now else s.accounts.conf.periodFinish)
                        - s.accounts.conf.lastUpdateTime
    requires Get(s.accounts.conf.rewardPerToken, c, 0)
             + elapsed * Get(s.accounts.conf.rewardRate, c, 0) * k.multiplier / TotalNow(k, s) <= U128_MAX
    ensures Due(s, who, c) <= Due(Updated(k, s, Some(who)), who, c)
    ensures IsShare(k.multiplier, elapsed * Get(s.accounts.conf.rewardRate, c, 0), CreditedNow(k, s, Some(who)),
                    TotalNow(k, s), Due(Updated(k, s, Some(who)), who, c) - Due(s, who, c))
  {
    var conf, power, total := s.accounts.conf, CreditedNow(k, s, Some(who)), TotalNow(k, s);
    var earned := EarnedIs(k, s, who, c);
    PendingIsShare(k.multiplier, conf, s.now, total, power, c, elapsed);
  }

  /** It leaves the account paid up, and counts the blocks from then on. */
  lemma UpdateEffect(k: Params, s: Store, who: Account, c: Currency)
    requires Inv(k, s)
    ensures var s' := Updated(k, s, Some(who));
      && PaidUp(s'.accounts, who, c) && s' == s.(accounts := s'.accounts)
      && s'.accounts.conf.lastUpdateTime
           == (if s.now < s.accounts.conf.periodFinish then s.now else s.accounts.conf.periodFinish)
      && s'.accounts.conf.rewardRate == s.accounts.conf.rewardRate
      && s'.accounts.conf.periodFinish == s.accounts.conf.periodFinish
    ensures forall u :: u != who ==> Due(Updated(k, s, Some(who)), u, c) == Due(s, u, c)
  {
  }

  /** A claim pays what is stored after the update, and clears it; without voting power nothing is paid. */
  lemma ClaimEffect(k: Params, s: Store, s': Store, who: Account, c: Currency)
    requires Inv(k, s) && RewardsTaken(k, s, s', who) && who != k.pool
    ensures var paid := if CreditedNow(k, s, Some(who)) == 0 then 0 else Due(Updated(k, s, Some(who)), who, c);
      && Held(s'.free, c, who) == Held(s.free, c, who) + paid
      && Held(s.free, c, k.pool) == Held(s'.free, c, k.pool) + paid
      && Due(s', who, c) == Due(Updated(k, s, Some(who)), who, c) - paid
      && forall u :: u != who && u != k.pool ==> Held(s'.free, c, u) == Held(s.free, c, u)
    ensures s'.book == s.book && s'.now == s.now && s'.accounts.conf == Updated(k, s, Some(who)).accounts.conf
  {
    var s1 := Updated(k, s, Some(who));
    if CreditedNow(k, s, Some(who)) != 0 && who in s1.accounts.rewards {
      assert Moved(s1.free, s'.free, k.pool, who, Due(s1, who, c), c);
    }
  }

  /** A round moves all that its controller holds of a listed currency to the pool, and spreads it, with what the
      running round has left, over the duration. The other currencies keep their rates. */
  lemma RoundEffect(k: Params, s: Store, s': Store, from: Account, list: seq<Currency>, c: Currency)
    requires Inv(k, s) && RoundStarted(k, s, s', from, list) && from != k.pool
    ensures var d, rate, rate' := s.accounts.conf.rewardsDuration, Get(s.accounts.conf.rewardRate, c, 0),
        Get(s'.accounts.conf.rewardRate, c, 0);
      var left := if s.now < s.accounts.conf.periodFinish then s.accounts.conf.periodFinish - s.now else 0;
      var given := if c in list then Held(s.free, c, from) else 0;
      && Held(s'.free, c, k.pool) == Held(s.free, c, k.pool) + given
      && Held(s.free, c, from) == Held(s'.free, c, from) + given
      && (c !in list ==> rate' == rate)
      && (c in list ==> d * rate' <= given + rate * left < d * rate' + d)
      && forall u :: u != from && u != k.pool ==> Held(s'.free, c, u) == Held(s.free, c, u)
    ensures s'.accounts.conf.periodFinish == s.now + s.accounts.conf.rewardsDuration
    ensures s'.accounts.conf.lastUpdateTime == s.now && s'.accounts.rewards == s.accounts.rewards
    ensures s'.accounts.conf.controller == Some(from) && s'.accounts.conf.lastReward == list && s'.book == s.book
  {
    var remaining := SatSub(s.accounts.conf.periodFinish, s.now);
    var given := if c in list then Held(s.free, c, from) else 0;
    assert Moved(s.free, s'.free, from, k.pool, PutIn(s.free, from, list)(c), c);
    assert Get(s'.accounts.conf.rewardRate, c, 0)
        == RateAfter(s.accounts.conf, remaining, HeldBy(s.free, from), list, c);
    if c in list {
      LeftoverCovered(k, s, c);
      RateSpreads(s.accounts.conf, remaining, given, c);
    }
  }

  /** The call that starts a round first settles the pool: from then on the round takes the duration that is set with
      it, or the one there was. */
  lemma NotifyEffect(k: Params, s: Store, s': Store, from: Account, duration: Option<nat>, list: seq<Currency>,
                     c: Currency)
    requires Inv(k, s) && from != k.pool
    requires RoundStarted(k, Updated(k, Configured(s, from, duration), None), s', from, list)
    ensures var d := if duration.Some? then duration.value else s.accounts.conf.rewardsDuration;
      var rate, rate' := Get(s.accounts.conf.rewardRate, c, 0), Get(s'.accounts.conf.rewardRate, c, 0);
      var left := if s.now < s.accounts.conf.periodFinish then s.accounts.conf.periodFinish - s.now else 0;
      && s'.accounts.conf.rewardsDuration == d && s'.accounts.conf.periodFinish == s.now + d
      && (c !in list ==> rate' == rate && Held(s'.free, c, k.pool) == Held(s.free, c, k.pool))
      && (c in list ==> d * rate' <= Held(s.free, c, from) + rate * left < d * rate' + d)
      && (c in list ==> Held(s'.free, c, k.pool) == Held(s.free, c, k.pool) + Held(s.free, c, from))
      && (c in list ==> Held(s'.free, c, from) == 0)
  {
    var d := DurationAfter(s.accounts.conf, duration);
    SettingsInv(k, s, Configured(s, from, duration), d, Some(from));
    UpdatedInv(k, Configured(s, from, duration), None);
    RoundEffect(k, Updated(k, Configured(s, from, duration), None), s', from, list, c);
  }

  /** What keeps a controller from giving a listed currency: no duration, tokens of his that are locked, or a sum that
      the pool cannot hold. A round is started exactly if the amounts of the update fit and nothing does. */
  lemma RoundAccepted(k: Params, s: Store, who: Account, duration: nat, list: seq<Currency>)
    ensures NotifyError(k, s, who, duration, list).None? <==>
      Fits(k, s) && (list == [] || 0 < duration)
      && forall c :: c in list && Held(s.free, c, who) != 0 ==>
          (c == k.token ==> Get(s.book.userLocked, who, 0) == 0)
          && Held(s.free, c, k.pool) + Held(s.free, c, who) <= U128_MAX
  {
    if list != [] {
      assert list[0] in list;
    }
  }

  // ---- Voting power --------------------------------------------------------------------

  /** The voting power of a position, from its amount and the blocks it has left. */
  lemma PositionPower(k: Params, s: Store, p: PositionId)
    requires Inv(k, s) && p in s.book.owner
    ensures p in s.book.locked
    ensures var l, m, w := s.book.locked[p], k.maxBlock, k.voteWeight;
      var power := CurrentPower(w, s.book.locked, s.userPointEpoch, s.userPointHistory, p, s.now);
      if s.now < l.end
      then
        var exact := m * (ONE * l.amount) + 4 * (w * (l.amount * (l.end - s.now)));
        4 * (m * (ONE * power)) <= exact < 4 * (m * (ONE * (power + 2))) + 4 * (w * (m * (l.end - s.now)))
      else power == 0
  {
    HasLock(k, s, p);
    assert PartOk(k, s, Histories);
    assert PositionOk(k, s.book.locked, s.book.owner, s.userPointEpoch, s.userPointHistory, s.now, p);
    CurrentIsPower(k, s.book.locked, s.book.owner, s.userPointEpoch, s.userPointHistory, s.now, p);
    PowerBounds(k.maxBlock, k.voteWeight, s.book.locked[p], s.now);
  }

  /** The total voting power at block t, from the amounts of all locks and the blocks they have left. */
  lemma TotalPower(k: Params, s: Store, t: nat)
    requires Inv(k, s)
    ensures var m, w, locks := k.maxBlock, k.voteWeight, s.book.locked;
      var total := SupplyPower(w, s.LastPoint().amount, BiasAt(m, locks, t));
      var exact := m * (ONE * s.book.supply) + 4 * (w * Sum(locks.Keys, LockedTime(locks, t)));
      4 * (m * (ONE * total)) <= exact
        < 4 * (m * (ONE * (total + 2))) + 4 * (w * (m * Sum(locks.Keys, TimeLeft(locks, t))))
  {
    SummaryIsSum(k, s);
    SupplyBounds(k.maxBlock, k.voteWeight, s.book.locked, t);
  }

  /** When a block ends, the power of every position goes on record. */
  lemma OnRecord(k: Params, s: Store, p: PositionId)
    requires Inv(k, s) && p in s.book.owner
    ensures (p, s.now) in PowersNow(k, s) && p in s.book.locked
    ensures PowersNow(k, s)[(p, s.now)] == Voting.Power(k.maxBlock, k.voteWeight, s.book.locked[p], s.now)
  {
    HasLock(k, s, p);
    assert PartOk(k, s, Histories);
    assert PositionOk(k, s.book.locked, s.book.owner, s.userPointEpoch, s.userPointHistory, s.now, p);
    CurrentIsPower(k, s.book.locked, s.book.owner, s.userPointEpoch, s.userPointHistory, s.now, p);
  }

  // ---- Which calls are accepted --------------------------------------------------------

  /** An end is neither earlier than the shortest lock from now nor later than the longest one, rounded up to a week. */
  predicate InRange(k: Params, s: Store, end: nat) {
    s.now + s.config.minBlock <= end <= ((k.maxBlock + s.now) / k.week + 1) * k.week
  }

  /** The owner can have `value` more locked, and it fits. */
  predicate CanLockMore(k: Params, s: Store, who: Account, locked: nat, value: nat) {
    && s.book.supply + value <= U128_MAX && locked + value <= U128_MAX
    && (value == 0 || Get(s.book.userLocked, who, 0) + value <= Held(s.free, k.token, who))
  }

  lemma RangeIs(k: Params, s: Store, end: nat)
    ensures EndRefused(k, s, end) <==> !InRange(k, s, end)
  {
    WeekFloorIsDivision(k.week, k.maxBlock + s.now);
  }

  /** A new lock is not refused exactly if its owner may have another position, it holds the minimum, its end is in
      range and has room on its list, and its owner can have so much more locked. At each limit it is accepted, and
      the error says which one it has missed. */
  lemma CreateAccepted(k: Params, s: Store, who: Account, value: nat, unlockTime: nat, end: nat)
    requires end == ((unlockTime + s.now) / k.week + 1) * k.week
    ensures var e := CreateError(k, s, who, value, unlockTime);
      && (e.None? <==> |Get(s.book.userPositions, who, [])| < k.maxPositions && s.config.minMint <= value
                       && InRange(k, s, end) && |Get(s.expiring, end, [])| < 100 && CanLockMore(k, s, who, 0, value))
      && (e == Some(BelowMinimumMint) ==> value < s.config.minMint)
      && (e == Some(ArgumentsError) ==> !InRange(k, s, end))
      && (e == Some(ExceedsMaxPositions) ==>
          k.maxPositions <= |Get(s.book.userPositions, who, [])| || 100 <= |Get(s.expiring, end, [])|)
      && (e == Some(Overflow) || e == Some(NotEnoughBalance) ==> !CanLockMore(k, s, who, 0, value))
      && e != Some(LockNotExist) && e != Some(Expired)
  {
    WeekFloorIsDivision(k.week, unlockTime + s.now);
    RangeIs(k, s, end);
  }

  /** A lock is extended if it is running, holds something, and its new end is in range and has room on its list. */
  lemma ExtendAccepted(k: Params, s: Store, who: Account, p: PositionId, unlockTime: nat, end: nat)
    requires p in s.book.locked && end == ((unlockTime + s.book.locked[p].end) / k.week + 1) * k.week
    ensures var e := ExtendError(k, s, who, p, unlockTime);
      && (e.None? <==> p in Get(s.book.userPositions, who, []) && s.now < s.book.locked[p].end
                       && 0 < s.book.locked[p].amount && InRange(k, s, end) && |Get(s.expiring, end, [])| < 100)
      && (e == Some(LockNotExist) ==> p !in Get(s.book.userPositions, who, []) || s.book.locked[p].amount == 0)
      && (e == Some(Expired) ==> s.book.locked[p].end <= s.now)
      && (e == Some(ArgumentsError) ==> !InRange(k, s, end))
      && (e == Some(ExceedsMaxPositions) ==> 100 <= |Get(s.expiring, end, [])|)
  {
    WeekFloorIsDivision(k.week, unlockTime + s.book.locked[p].end);
    RangeIs(k, s, end);
  }

  /** A lock is topped up if it is running, holds something, and its owner can have so much more locked. */
  lemma TopUpAccepted(k: Params, s: Store, who: Account, p: PositionId, value: nat)
    requires Inv(k, s) && p in s.book.locked
    ensures var e, lock := TopUpError(k, s, who, p, value), s.book.locked[p];
      && (e.None? <==> p in Get(s.book.userPositions, who, []) && s.config.minMint <= value && 0 < lock.amount
                       && s.now < lock.end && CanLockMore(k, s, who, lock.amount, value))
      && (e == Some(LockNotExist) ==> p !in Get(s.book.userPositions, who, []) || lock.amount == 0)
      && (e == Some(BelowMinimumMint) ==> value < s.config.minMint)
      && (e == Some(Expired) ==> lock.end <= s.now)
      && (e == Some(Overflow) || e == Some(NotEnoughBalance) ==> !CanLockMore(k, s, who, lock.amount, value))
  {
    OnePartition(k, s, who, p);
  }

  /** A position is paid out once it has ended, and redeemed before if the rate can be computed. */
  lemma LeaveAccepted(k: Params, s: Store, who: Account, p: PositionId)
    requires p in s.book.locked
    ensures var e := WithdrawError(s, who, p);
      && (e.None? <==> p in Get(s.book.userPositions, who, []) && s.book.locked[p].end <= s.now)
      && (e == Some(Expired) ==> s.now < s.book.locked[p].end)
      && (e == Some(LockNotExist) ==> p !in Get(s.book.userPositions, who, []))
    ensures var e, left := RedeemError(k, s, who, p), s.book.locked[p].end - s.now;
      && (e.None? <==> p in Get(s.book.userPositions, who, []) && 0 < left && (left + k.oneYear) * ONE <= U128_MAX
                       && k.fiveYears * ONE <= U128_MAX && (left + k.oneYear) * ONE / k.fiveYears <= U128_MAX)
      && (e == Some(Expired) ==> left <= 0)
      && (e == Some(LockNotExist) ==> p !in Get(s.book.userPositions, who, []))
  {
    if s.now < s.book.locked[p].end {
      CommissionValue(k.oneYear, k.fiveYears, s.book.locked[p].end - s.now);
    }
  }
}
