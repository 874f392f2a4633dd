/** When the amounts of a call fit their types: the conditions under which calls succeed. */
module Headroom {
  import opened Primitives
  import opened Sums
  import opened Weeks
  import opened Curve
  import opened Lines
  import opened Voting
  import opened History
  import opened LockLedger
  import opened Rewards
  import opened Solvency
  import opened Tokens
  import opened EarlyRedeem
  import opened Invariants
  import opened Calls
  import opened State
  import opened LockCalls
  import opened RewardCalls

  ghost predicate TotalFits(k: Params, s: Store, total: nat) {
    total == TotalNow(k, s) ==> total <= U128_MAX && AccrualFits(k.multiplier, s.accounts.conf, s.now, total)
  }

  /** The total voting power fits, and so does what has accrued to one unit of it since the last update. */
  ghost predicate Fits(k: Params, s: Store) {
    forall total: nat :: TotalFits(k, s, total)
  }

  lemma FitsMeaning(k: Params, s: Store)
    ensures Fits(k, s) <==>
      TotalNow(k, s) <= U128_MAX && AccrualFits(k.multiplier, s.accounts.conf, s.now, TotalNow(k, s))
  {
    assert Fits(k, s) ==> TotalFits(k, s, TotalNow(k, s));
  }

  /** The total weight still fits when the weight of lock l comes on top of it. */
  ghost predicate WeightFits(k: Params, s: Store, l: LockedBalance) {
    BiasAt(k.maxBlock, s.book.locked, s.now) + BiasOf(k.maxBlock, l, s.now) <= I128_MAX
  }

  /** The conditions of the calls that change a lock. */
  ghost predicate DepositFits(k: Params, s: Store, l: LockedBalance) {
    Fits(k, s) && WeightFits(k, s, l)
  }

  ghost predicate CreateFits(k: Params, s: Store, value: nat, unlockTime: nat) {
    DepositFits(k, s, LockedBalance(value, NextWeek(k.week, unlockTime + s.now)))
  }

  ghost predicate ExtendFits(k: Params, s: Store, p: PositionId, unlockTime: nat) {
    var lock := Get(s.book.locked, p, NO_LOCK);
    DepositFits(k, s, lock.(end := NextWeek(k.week, unlockTime + lock.end)))
  }

  ghost predicate TopUpFits(k: Params, s: Store, p: PositionId, value: nat) {
    var lock := Get(s.book.locked, p, NO_LOCK);
    DepositFits(k, s, lock.(amount := lock.amount + value))
  }

  ghost predicate ReleaseFits(k: Params, s: Store, who: Account, fee: nat) {
    Fits(k, s) && CanReceive(s.free, k.token, who, k.buyBack, fee)
  }

  ghost predicate RedeemFits(k: Params, s: Store, who: Account, p: PositionId) {
    var lock := Get(s.book.locked, p, NO_LOCK);
    var rate := RedeemCommission(k.oneYear, k.fiveYears, SatSub(lock.end, s.now));
    rate.Ok? && ReleaseFits(k, s, who, Fee(Some(rate.value), lock.amount))
  }

  /** Without the weight of a new lock the total weight always fits: it only falls. */
  lemma EmptyWeightFits(k: Params, s: Store)
    requires Inv(k, s)
    ensures WeightFits(k, s, NO_LOCK)
  {
    assert PartOk(k, s, Summary);
    BiasFalls(k.maxBlock, s.book.locked, s.LastPoint().block, s.now);
    assert Slope(k.maxBlock, NO_LOCK) * 0 == 0;
  }

  /** A new, empty position makes no difference. */
  lemma AdmittedFits(k: Params, s: Store, who: Account, value: nat, end: nat)
    requires Inv(k, s) && 0 < end
    ensures DepositFits(k, Admitted(s, who, end), LockedBalance(NO_LOCK.amount + value, NewEnd(NO_LOCK, end)))
      <==> DepositFits(k, s, LockedBalance(value, end))
  {
    assert PartOk(k, s, Ledger);
    assert IdOk(s.book, s.book.next);
    ReplaceBias(k.maxBlock, s.book.locked, s.book.next, NO_LOCK, s.now);
    FitsMeaning(k, s);
    FitsMeaning(k, Admitted(s, who, end));
  }

  // ---- Rewards -------------------------------------------------------------------------

  /** Reward per token of currency c, as a call computes it now, that account who has not been credited. */
  ghost function Uncredited(k: Params, s: Store, who: Account, c: Currency): nat {
    Gap(Accrue(k.multiplier, s.accounts.conf, s.now, TotalNow(k, s)).rewardPerToken, s.accounts.paid, c, who)
  }

  /** What a solvent pool owes an account is in it, so no credit saturates. */
  lemma CreditCovered(mult: pos, a: Accounts, bal: Solvency.Power, users: set<Account>, pool: Currency -> nat,
                      who: Account, balance: nat, c: Currency)
    requires Owed(mult, a, bal, users, c) <= mult * pool(c) && a.conf.lastUpdateTime <= a.conf.periodFinish
    requires (forall u :: u in users ==> 0 <= bal(u)) && if who in users then balance == bal(who) else balance == 0
    ensures Get(Get(a.rewards, who, map[]), c, 0) + balance * Gap(a.conf.rewardPerToken, a.paid, c, who) / mult
      <= pool(c)
  {
    var rpt := a.conf.rewardPerToken;
    var f, gap, due := ClaimTerm(bal, rpt, a.paid, c), Gap(rpt, a.paid, c, who), Get(Get(a.rewards, who, map[]), c, 0);
    forall u | u in users
      ensures 0 <= f(u)
    {
      MulMono(0, bal(u), Gap(rpt, a.paid, c, u));
    }
    SumNonNeg(users, f);
    if who in users {
      SumTerm(users, f, who);
    } else {
      assert 0 * gap == 0;
    }
    StoredTermBound(a.rewards, who, c);
    MulMono(0, a.conf.periodFinish - a.conf.lastUpdateTime, Get(a.conf.rewardRate, c, 0));
    MulDivBound(balance * gap, mult);
    MulMono(due, Stored(a.rewards, c) + Reserved(a.conf, c), mult);
    Distribute(mult, due, balance * gap / mult);
    CancelFactor(mult, due + balance * gap / mult, pool(c));
  }

  lemma PendingCovered(k: Params, s: Store, who: Account, c: Currency)
    requires Inv(k, s)
    ensures Due(s, who, c) + CreditedNow(k, s, Some(who)) * Uncredited(k, s, who, c) / k.multiplier
      <= Held(s.free, c, k.pool)
  {
    var users, total := s.book.userPositions.Keys, TotalNow(k, s);
    var settled := s.accounts.(conf := Settle(k.multiplier, s.accounts.conf, s.now, total));
    assert PartOk(k, s, Ledger) && PartOk(k, s, RewardPool);
    AllNonNeg(k.maxBlock, k.voteWeight, s.book, s.now);
    BalancesFit(k, s.book, s.now);
    CreditedFits(k, s, who);
    SettleOwes(k.multiplier, s.accounts, s.Balances(k), users, s.now, total, c);
    assert Owed(k.multiplier, s.accounts, s.Balances(k), users, c) <= k.multiplier * s.Pool(k)(c);
    CreditCovered(k.multiplier, settled, s.Balances(k), users, s.Pool(k), who, CreditedNow(k, s, Some(who)), c);
  }

  /** An account's voting power is part of the total. */
  lemma CreditWithinTotal(k: Params, s: Store, who: Account)
    requires Inv(k, s)
    ensures CreditedNow(k, s, Some(who)) <= TotalNow(k, s)
  {
    assert PartOk(k, s, Ledger);
    CreditedFits(k, s, who);
    if who in s.book.userPositions {
      AllNonNeg(k.maxBlock, k.voteWeight, s.book, s.now);
      BalancesFit(k, s.book, s.now);
      SumTerm(s.book.userPositions.Keys, s.Balances(k), who);
    }
  }

  lemma LessPending(mult: pos, due: nat, less: nat, more: nat, gap: nat, held: Balance)
    requires less <= more && due + more * gap / mult <= held
    ensures less * gap / mult <= U128_MAX
  {
    MulMono(less, more, gap);
    DivMono(less * gap, more * gap, mult);
  }

  /** No credit of an account overflows: the pool holds what it comes to. */
  lemma CreditFits(k: Params, s: Store, who: Account, balance: nat, rpt: Amounts)
    requires Inv(k, s) && balance <= CreditedNow(k, s, Some(who))
    requires rpt == Accrue(k.multiplier, s.accounts.conf, s.now, TotalNow(k, s)).rewardPerToken
    ensures PendingFits(k.multiplier, rpt, Get(s.accounts.paid, who, map[]), balance)
  {
    forall c | c in rpt
      ensures Pending(k.multiplier, rpt, Get(s.accounts.paid, who, map[]), balance, c) <= U128_MAX
    {
      PendingCovered(k, s, who, c);
      LessPending(k.multiplier, Due(s, who, c), balance, CreditedNow(k, s, Some(who)), Uncredited(k, s, who, c),
                  Held(s.free, c, k.pool));
    }
  }

  // ---- Points --------------------------------------------------------------------------

  /** Whatever lock a call has just written, the points of all positions can be read. */
  lemma MidCallReadable(k: Params, s: Store, p: PositionId, l: LockedBalance, q: PositionId)
    requires Inv(k, s) && Writable(k, s, p, l)
    ensures Readable(s.book.locked[p := l], s.userPointEpoch, s.userPointHistory, q, s.now)
  {
    AlwaysReadable(k, s, q);
  }

  lemma AlwaysReadable(k: Params, s: Store, q: PositionId)
    requires Inv(k, s)
    ensures Readable(s.book.locked, s.userPointEpoch, s.userPointHistory, q, s.now)
  {
    assert PartOk(k, s, Histories);
    assert PositionOk(k, s.book.locked, s.book.owner, s.userPointEpoch, s.userPointHistory, s.now, q);
    CurrentReadable(k, s.book.locked, s.book.owner, s.userPointEpoch, s.userPointHistory, s.now, q);
  }

  /** In the middle of a call the caller counts for at most what he did before it, which is part of the total. */
  lemma MidCallWithin(k: Params, s: Store, p: PositionId, l: LockedBalance)
    requires Inv(k, s) && Writable(k, s, p, l)
    ensures MidCallBalance(k, s, p, l) <= CreditedNow(k, s, Some(s.book.owner[p])) <= TotalNow(k, s)
  {
    assert PartOk(k, s, Ledger) && PartOk(k, s, Histories);
    CallerBalance(k, s.book, s.userPointEpoch, s.userPointHistory, s.now, p, l);
    CreditedFits(k, s, s.book.owner[p]);
    CreditWithinTotal(k, s, s.book.owner[p]);
  }

  /** The lock that a call changes is part of the line of all locks. */
  lemma OldLockPart(k: Params, s: Store, p: PositionId)
    requires Inv(k, s) && p in s.book.locked
    ensures PartOf(k.maxBlock, LineOf(k.maxBlock, s.book.locked), s.book.locked[p], s.now)
  {
    assert PartOk(k, s, Summary);
    LineHasPart(k.maxBlock, s.book.locked, p, s.LastPoint().block, s.now);
  }

  // ---- Reward updates ------------------------------------------------------------------

  /** An account's balance and what it has earned can be computed. */
  predicate CreditOk(mult: pos, locked: Locks, epochs: map<PositionId, nat>, h: UserHistory, ps: seq<PositionId>,
                     now: nat, rpt: Amounts, paidTo: Amounts, balance: nat)
  {
    && AllReadable(ps, locked, epochs, h, now) && balance <= U128_MAX
    && PendingFits(mult, rpt, paidTo, balance)
  }

  /** Reward per token as an update computes it now. */
  ghost function PerToken(k: Params, s: Store): Amounts {
    Accrue(k.multiplier, s.accounts.conf, s.now, TotalNow(k, s)).rewardPerToken
  }

  /** The reward update of a call never fails because of the account. */
  lemma MidCallCredit(k: Params, s: Store, p: PositionId, l: LockedBalance)
    requires Inv(k, s) && Writable(k, s, p, l) && TotalNow(k, s) <= U128_MAX
    ensures var who := s.book.owner[p];
      CreditOk(k.multiplier, s.book.locked[p := l], s.userPointEpoch, s.userPointHistory,
               PositionsOf(s.book, who), s.now, PerToken(k, s), Get(s.accounts.paid, who, map[]),
               MidCallBalance(k, s, p, l))
  {
    var who := s.book.owner[p];
    MidCallWithin(k, s, p, l);
    CreditFits(k, s, who, MidCallBalance(k, s, p, l), PerToken(k, s));
    forall q | q in PositionsOf(s.book, who)
      ensures Readable(s.book.locked[p := l], s.userPointEpoch, s.userPointHistory, q, s.now)
    {
      MidCallReadable(k, s, p, l, q);
    }
  }

  /** Nor does one between calls. */
  lemma CreditNow(k: Params, s: Store, who: Account)
    requires Inv(k, s) && TotalNow(k, s) <= U128_MAX
    ensures CreditOk(k.multiplier, s.book.locked, s.userPointEpoch, s.userPointHistory, PositionsOf(s.book, who), s.now,
                     PerToken(k, s), Get(s.accounts.paid, who, map[]), CreditedNow(k, s, Some(who)))
  {
    CreditWithinTotal(k, s, who);
    CreditFits(k, s, who, CreditedNow(k, s, Some(who)), PerToken(k, s));
    forall q | q in PositionsOf(s.book, who)
      ensures Readable(s.book.locked, s.userPointEpoch, s.userPointHistory, q, s.now)
    {
      AlwaysReadable(k, s, q);
    }
  }

  /** Whether an update fits, as its two steps check it. */
  lemma UpdateFits(k: Params, s: Store, who: Option<Account>, total: nat, balance: nat)
    requires Inv(k, s) && total == TotalNow(k, s) && balance == CreditedNow(k, s, who)
    ensures Fits(k, s) <==>
      total <= U128_MAX && AccrualFits(k.multiplier, s.accounts.conf, s.now, total) && (who.Some? ==>
        CreditOk(k.multiplier, s.book.locked, s.userPointEpoch, s.userPointHistory,
                 PositionsOf(s.book, who.value), s.now,
                 Accrue(k.multiplier, s.accounts.conf, s.now, total).rewardPerToken,
                 Get(s.accounts.paid, who.value, map[]), balance))
  {
    FitsMeaning(k, s);
    if Fits(k, s) && who.Some? {
      CreditNow(k, s, who.value);
    }
  }

  /** The index has nothing to do with it. */
  lemma IndexFits(k: Params, s: Store, s': Store)
    requires s' == Reindexed(s, s')
    ensures Fits(k, s') <==> Fits(k, s)
  {
    FitsMeaning(k, s);
    FitsMeaning(k, s');
  }

  // ---- Claims and rounds ---------------------------------------------------------------

  /** The receiver's balances fit what is due to him. */
  predicate PaymentFits(free: Holdings, due: Amounts, who: Account) {
    forall c :: c in due ==> Held(free, c, who) + due[c] <= U128_MAX
  }

  /** The payment of a claim fits, if there is one. */
  ghost predicate ClaimFits(k: Params, s: Store, who: Account) {
    var rewards := Updated(k, s, Some(who)).accounts.rewards;
    CreditedNow(k, s, Some(who)) == 0 || who !in rewards || PaymentFits(s.free, rewards[who], who)
  }

  lemma UpdatedReadable(k: Params, s: Store, s1: Store, who: Account)
    requires s1 == Updated(k, s, Some(who)) && Inv(k, s1) && Fits(k, s)
    ensures AllReadable(PositionsOf(s1.book, who), s1.book.locked, s1.userPointEpoch, s1.userPointHistory, s1.now)
    ensures CreditedNow(k, s1, Some(who)) == CreditedNow(k, s, Some(who)) <= U128_MAX
  {
    FitsMeaning(k, s);
    CreditNow(k, s1, who);
  }

  /** Why a round is not started, if it is not. */
  ghost function NotifyError(k: Params, s: Store, who: Account, duration: nat, list: seq<Currency>): Option<Error> {
    if !Fits(k, s) then Some(Overflow) else RoundError(k, s.free, s.book.userLocked, who, duration, list)
  }

  /** Once the pool has been settled nothing more accrues in the block. */
  lemma SettledFits(mult: pos, conf: IncentiveConfig, now: nat, total: nat)
    requires conf.lastUpdateTime == LastTimeApplicable(conf, now)
    ensures AccrualFits(mult, conf, now, total)
  {
    if total != 0 {
      forall c | c in conf.rewardRate
        ensures Increment(mult, conf, now, total, c) <= U128_MAX
      {
        SettledIncrement(mult, conf, now, total, c);
      }
    }
  }

  lemma UpdatedFits(k: Params, s: Store, s1: Store)
    requires s1 == Updated(k, s, None) && Fits(k, s)
    ensures Fits(k, s1)
  {
    FitsMeaning(k, s);
    FitsMeaning(k, s1);
    SettledFits(k.multiplier, s1.accounts.conf, s.now, TotalNow(k, s));
  }

  /** Nor in the block in which a round starts. */
  lemma StartedFits(k: Params, s: Store, s': Store, who: Account, list: seq<Currency>)
    requires RoundStarted(k, Updated(k, s, None), s', who, list) && Fits(k, s)
    ensures Fits(k, s')
  {
    FitsMeaning(k, s);
    FitsMeaning(k, s');
    SettledFits(k.multiplier, s'.accounts.conf, s.now, TotalNow(k, s));
  }

  lemma SupplyPowerMono(w: nat, less: nat, more: nat, low: int, high: int)
    requires less <= more && low <= high
    ensures SupplyPower(w, less, low) <= SupplyPower(w, more, high)
  {
    MulMono(Max0(low), Max0(high), w);
    DivMono(w * Max0(low), w * Max0(high), ONE);
  }

  /** A withdrawal makes the total smaller and leaves the pool settled, so the next one in the block fits as well. */
  lemma WithdrawnFits(k: Params, s: Store, s': Store, p: PositionId, fee: nat)
    requires Inv(k, s) && Withdrawn(k, s, s', p, fee) && Fits(k, s)
    ensures Fits(k, s')
  {
    FitsMeaning(k, s);
    FitsMeaning(k, s');
    assert CheckpointedPart(k, s, s', p, NO_LOCK, RewardPool);
    SettledFits(k.multiplier, s'.accounts.conf, s.now, TotalNow(k, s'));
    ReplaceBias(k.maxBlock, s.book.locked, p, NO_LOCK, s.now);
    MulMono(0, Left(s.book.locked[p], s.now), Slope(k.maxBlock, s.book.locked[p]));
    SupplyPowerMono(k.voteWeight, s'.book.supply, s.book.supply, BiasAt(k.maxBlock, s'.book.locked, s.now),
                    BiasAt(k.maxBlock, s.book.locked, s.now));
  }

  /** The settings make no difference to what has accrued. */
  lemma SettingsFit(k: Params, s: Store, from: Account, duration: Option<nat>)
    ensures Fits(k, Configured(s, from, duration)) <==> Fits(k, s)
  {
    FitsMeaning(k, s);
    FitsMeaning(k, Configured(s, from, duration));
    var total, conf, conf' := TotalNow(k, s), s.accounts.conf, Configured(s, from, duration).accounts.conf;
    if total != 0 {
      assert forall c ::
        Increment(k.multiplier, conf, s.now, total, c) == Increment(k.multiplier, conf', s.now, total, c);
    }
  }
}
