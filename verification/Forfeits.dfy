/** What a withdrawal costs its owner in rewards: the lock is emptied before rewards are credited, so the
    voting power of the position no longer counts. */
module Forfeits {
  import opened Primitives
  import opened Sums
  import opened Curve
  import opened History
  import opened LockLedger
  import opened Rewards
  import opened Solvency
  import opened Notify
  import opened Tokens
  import opened Invariants
  import opened Calls
  import opened State
  import opened LockCalls
  import opened RewardCalls
  import opened Headroom
  import opened Guarantees

  /** The power of a position. */
  ghost function PowerOf(k: Params, s: Store, p: PositionId): nat {
    Voting.Power(k.maxBlock, k.voteWeight, Get(s.book.locked, p, NO_LOCK), s.now)
  }

  /** An emptied position drops out of its owner's total. */
  lemma TotalWithout(w: nat, locked: Locks, epochs: map<PositionId, nat>, h: UserHistory, ps: seq<PositionId>,
                     p: PositionId, t: nat)
    requires Distinct(ps) && p in ps
    ensures CurrentTotal(w, locked[p := NO_LOCK], epochs, h, ps, t)
         == CurrentTotal(w, locked, epochs, h, ps, t) - CurrentPower(w, locked, epochs, h, p, t)
  {
    var f, f' := CurrentTerm(w, locked, epochs, h, t), CurrentTerm(w, locked[p := NO_LOCK], epochs, h, t);
    CurrentTotalIsSum(w, locked, epochs, h, ps, t);
    CurrentTotalIsSum(w, locked[p := NO_LOCK], epochs, h, ps, t);
    var mine := set q | q in ps;
    forall q | q in mine && q != p
      ensures f(q) == f'(q)
    {
    }
    assert mine + {p} == mine;
    SumUpdate(mine, f, mine, f', p);
  }

  /** A withdrawal empties the lock before it credits rewards: what it credits leaves out exactly
      the voting power of the position that is withdrawn. */
  lemma WithdrawalCredits(k: Params, s: Store, p: PositionId)
    requires Inv(k, s) && p in s.book.owner
    ensures MidCallBalance(k, s, p, NO_LOCK)
         == CreditedNow(k, s, Some(s.book.owner[p]))
            - Voting.Power(k.maxBlock, k.voteWeight, Get(s.book.locked, p, NO_LOCK), s.now)
  {
    assert PartOk(k, s, Histories);
    var who := s.book.owner[p];
    OnePartition(k, s, who, p);
    TotalWithout(k.voteWeight, s.book.locked, s.userPointEpoch, s.userPointHistory, PositionsOf(s.book, who), p, s.now);
    assert PositionOk(k, s.book.locked, s.book.owner, s.userPointEpoch, s.userPointHistory, s.now, p);
    CurrentIsPower(k, s.book.locked, s.book.owner, s.userPointEpoch, s.userPointHistory, s.now, p);
  }

  lemma PreviewIsPending(mult: pos, rpt: Amounts, paid: Amounts, balance: nat, c: Currency)
    ensures Get(Preview(mult, rpt, paid, balance), c, 0) == Min(Pending(mult, rpt, paid, balance, c), U128_MAX)
  {
    if c !in rpt || rpt[c] < Get(paid, c, 0) {
      assert balance * 0 == 0;
      DivExact(0, mult);
    }
  }

  lemma UpdateCredits(mult: pos, a: Accounts, who: Account, now: nat, total: nat, balance: nat, c: Currency)
    ensures var gap := Gap(Accrue(mult, a.conf, now, total).rewardPerToken, a.paid, c, who);
      Get(Get(Update(mult, a, Some(who), now, total, balance).rewards, who, map[]), c, 0)
        == SatAdd(Get(Get(a.rewards, who, map[]), c, 0), Min(balance * gap / mult, U128_MAX))
  {
    PreviewIsUpdate(mult, a, who, now, total, balance, c);
    PreviewIsPending(mult, Accrue(mult, a.conf, now, total).rewardPerToken, Get(a.paid, who, map[]), balance, c);
  }

  /** What the query reports, in closed form. */
  lemma ReportedIs(k: Params, s: Store, who: Account, c: Currency)
    requires Inv(k, s)
    ensures Get(Reported(k, s, who), c, 0) == CreditedNow(k, s, Some(who)) * Uncredited(k, s, who, c) / k.multiplier
  {
    PendingCovered(k, s, who, c);
    PreviewIsPending(k.multiplier, Accrue(k.multiplier, s.accounts.conf, s.now, TotalNow(k, s)).rewardPerToken,
                     Get(s.accounts.paid, who, map[]), CreditedNow(k, s, Some(who)), c);
  }

  /** A credit on less power does not saturate if the one on more power fits. */
  lemma CreditExact(mult: pos, due: nat, less: nat, more: nat, gap: nat)
    requires less <= more && due + more * gap / mult <= U128_MAX
    ensures SatAdd(due, Min(less * gap / mult, U128_MAX)) == due + less * gap / mult
  {
    MulMono(less, more, gap);
    DivMono(less * gap, more * gap, mult);
  }

  lemma WithdrawnAccounts(k: Params, s: Store, s': Store, p: PositionId, fee: nat)
    requires Withdrawn(k, s, s', p, fee)
    ensures s'.accounts == Update(k.multiplier, s.accounts, Some(s.book.owner[p]), s.now, TotalNow(k, s),
                                  MidCallBalance(k, s, p, NO_LOCK))
  {
    assert CheckpointedPart(k, s, s', p, NO_LOCK, RewardPool);
  }

  /** An update that credits less than all of an account's power. */
  lemma StoredByUpdate(k: Params, s: Store, who: Account, less: nat, c: Currency)
    requires Inv(k, s) && less <= CreditedNow(k, s, Some(who))
    ensures var a := Update(k.multiplier, s.accounts, Some(who), s.now, TotalNow(k, s), less);
      Get(Get(a.rewards, who, map[]), c, 0) == Due(s, who, c) + less * Uncredited(k, s, who, c) / k.multiplier
  {
    UpdateCredits(k.multiplier, s.accounts, who, s.now, TotalNow(k, s), less, c);
    PendingCovered(k, s, who, c);
    CreditExact(k.multiplier, Due(s, who, c), less, CreditedNow(k, s, Some(who)), Uncredited(k, s, who, c));
  }

  /** What a withdrawal adds to the stored rewards: the accrual on the account's power without the
      position's. */
  lemma StoredByWithdrawal(k: Params, s: Store, s': Store, p: PositionId, fee: nat, c: Currency)
    requires Inv(k, s) && Withdrawn(k, s, s', p, fee)
    ensures var who := s.book.owner[p];
      && PowerOf(k, s, p) <= CreditedNow(k, s, Some(who))
      && Due(s', who, c) == Due(s, who, c)
           + (CreditedNow(k, s, Some(who)) - PowerOf(k, s, p)) * Uncredited(k, s, who, c) / k.multiplier
  {
    WithdrawalCredits(k, s, p);
    WithdrawnAccounts(k, s, s', p, fee);
    StoredByUpdate(k, s, s.book.owner[p], MidCallBalance(k, s, p, NO_LOCK), c);
  }

  /** Rounded down, leaving out part of a dividend goes unnoticed exactly when it is within the remainder. */
  lemma PartUnnoticed(x: nat, part: nat, d: pos)
    requires part <= x
    ensures (x - part) / d == x / d <==> part <= x % d
    ensures part / d <= x / d - (x - part) / d <= part / d + 1
  {
    Euclid(x, d);
    Euclid(part, d);
    Euclid(x - part, d);
    if part <= x % d {
      DivUnique(x - part, d, x / d, x % d - part);
    }
    QuotientSum(x - part, part, d);
  }

  lemma ShortBy(balance: nat, power: nat, gap: nat, mult: pos)
    requires power <= balance
    ensures var whole, lost, short := balance * gap, power * gap, balance * gap / mult - (balance - power) * gap / mult;
      && 0 <= whole && 0 <= lost && lost / mult <= short <= lost / mult + 1
      && (short == 0 <==> lost <= whole % mult)
      && (power == 0 ==> short == 0)
  {
    MulMono(power, balance, gap);
    assert (balance - power) * gap == balance * gap - power * gap;
    PartUnnoticed(balance * gap, power * gap, mult);
  }

  /** A withdrawal stores less than the query reports by what has accrued on the power of the position,
      to within one unit. It stores just what is reported exactly if that accrual is within what rounding
      leaves of the account's, and so whenever the lock has ended. */
  lemma WithdrawalForfeits(k: Params, s: Store, s': Store, p: PositionId, fee: nat, c: Currency)
    requires Inv(k, s) && Withdrawn(k, s, s', p, fee)
    ensures var who := s.book.owner[p];
      var whole := CreditedNow(k, s, Some(who)) * Uncredited(k, s, who, c);
      var lost := PowerOf(k, s, p) * Uncredited(k, s, who, c);
      var short := Due(s, who, c) + Get(Reported(k, s, who), c, 0) - Due(s', who, c);
      && lost / k.multiplier <= short <= lost / k.multiplier + 1
      && (short == 0 <==> lost <= whole % k.multiplier)
      && (Get(s.book.locked, p, NO_LOCK).end <= s.now ==> short == 0)
  {
    var who := s.book.owner[p];
    StoredByWithdrawal(k, s, s', p, fee, c);
    ReportedIs(k, s, who, c);
    ShortBy(CreditedNow(k, s, Some(who)), PowerOf(k, s, p), Uncredited(k, s, who, c), k.multiplier);
  }
}
