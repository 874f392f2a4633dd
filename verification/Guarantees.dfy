/** What the invariant of the bbBNC pallet means: the statements that hold in every state the pallet
    can be in between calls. */
module Guarantees {
  import opened Primitives
  import opened Sums
  import opened Weeks
  import opened Curve
  import opened Lines
  import opened Voting
  import opened LockLedger
  import opened ExpiryIndex
  import opened Solvency
  import opened Tokens
  import opened Invariants
  import opened State

  /** The last global point and the slope changes are the plain sums over all positions, and its
      amount is the supply. */
  lemma SummaryIsSum(k: Params, s: Store)
    requires Inv(k, s)
    ensures var b := s.LastPoint().block;
      && s.LastPoint().slope == SlopeAfter(k.maxBlock, s.book.locked, b)
      && s.LastPoint().bias == BiasAt(k.maxBlock, s.book.locked, b)
      && s.LastPoint().amount == TotalAmount(s.book.locked) == s.book.supply
      && forall t: nat :: t > b ==> Get(s.slopeChanges, t, 0) == -EndingAt(k.maxBlock, s.book.locked, t)
  {
    assert PartOk(k, s, Summary) && PartOk(k, s, Ledger);
    var c := LineOf(k.maxBlock, s.book.locked);
    forall t: nat | t > s.LastPoint().block
      ensures Get(s.slopeChanges, t, 0) == -EndingAt(k.maxBlock, s.book.locked, t)
    {
      assert ChangeRight(c, s.slopeChanges, t);
    }
  }

  /** The locks of the owned positions. All other locks are empty. */
  function LiveLocks(b: LockBook): Locks {
    map p | p in b.owner :: Get(b.locked, p, NO_LOCK)
  }

  /** Sums of terms that vanish for an empty lock need only the live locks. */
  lemma LiveSum(b: LockBook, f: PositionId -> int, g: PositionId -> int)
    requires Allocated(b)
    requires forall p :: p in b.owner ==> f(p) == g(p)
    requires forall p :: p in b.locked && b.locked[p] == NO_LOCK ==> f(p) == 0
    ensures Sum(b.locked.Keys, f) == Sum(LiveLocks(b).Keys, g)
  {
    var live := LiveLocks(b);
    forall p | p in live.Keys
      ensures p in b.locked
    {
      assert IdOk(b, p);
    }
    forall p | p in b.locked.Keys && p !in live.Keys
      ensures f(p) == 0
    {
      assert IdOk(b, p);
    }
    SumSuperset(live.Keys, b.locked.Keys, f);
    forall p | p in live.Keys
      ensures f(p) == g(p)
    {
      assert p in b.owner;
    }
    SumSame(live.Keys, f, g);
  }

  lemma LiveTotals(m: pos, w: nat, b: LockBook, t: nat)
    requires Allocated(b)
    ensures TotalAmount(b.locked) == TotalAmount(LiveLocks(b))
    ensures BiasAt(m, b.locked, t) == BiasAt(m, LiveLocks(b), t)
    ensures Sum(b.locked.Keys, PowerTerm(m, w, b.locked, t)) == Sum(LiveLocks(b).Keys, PowerTerm(m, w, LiveLocks(b), t))
  {
    var live := LiveLocks(b);
    forall p
      ensures p in b.owner ==> p in live && p in b.locked && live[p] == b.locked[p]
    {
      assert IdOk(b, p);
    }
    LiveSum(b, AmountTerm(b.locked), AmountTerm(live));
    LiveSum(b, BiasTerm(m, b.locked, t), BiasTerm(m, live, t));
    LiveSum(b, PowerTerm(m, w, b.locked, t), PowerTerm(m, w, live, t));
  }

  /** Account by account or position by position, it is the same sum. */
  lemma BalancesAreLive(k: Params, b: LockBook, t: nat)
    requires Sound(b, k.maxPositions)
    ensures Sum(b.userPositions.Keys, Voting.Balances(k.maxBlock, k.voteWeight, b.locked, b.owner, t))
         == Sum(LiveLocks(b).Keys, PowerTerm(k.maxBlock, k.voteWeight, LiveLocks(b), t))
  {
    var own, f := OwnerOf(b.owner), PowerTerm(k.maxBlock, k.voteWeight, b.locked, t);
    forall p | p in b.locked.Keys
      ensures own(p) in b.userPositions.Keys || f(p) == 0
    {
      assert IdOk(b, p) && OnItsList(b, p);
    }
    SumPartition(b.locked.Keys, b.userPositions.Keys, own, f);
    LiveTotals(k.maxBlock, k.voteWeight, b, t);
  }

  ghost predicate NoneEnded(b: LockBook, t: nat) {
    b.owner != map[] && forall p :: p in b.owner ==> t < Get(b.locked, p, NO_LOCK).end
  }

  lemma LiveGap(k: Params, b: LockBook, t: nat)
    requires Sound(b, k.maxPositions)
    ensures var total := SupplyPower(k.voteWeight, b.supply, BiasAt(k.maxBlock, b.locked, t));
      var sum := Sum(LiveLocks(b).Keys, PowerTerm(k.maxBlock, k.voteWeight, LiveLocks(b), t));
      sum <= total && (NoneEnded(b, t) ==> total < sum + 2 * |b.owner|)
  {
    var live := LiveLocks(b);
    LiveTotals(k.maxBlock, k.voteWeight, b, t);
    PowersWithinSupply(k.maxBlock, k.voteWeight, live, t);
    assert live.Keys == b.owner.Keys;
    assert |live| == |live.Keys| && |b.owner| == |b.owner.Keys|;
    if NoneEnded(b, t) {
      assert b.owner.Keys != {};
    }
  }

  /** The voting powers of all accounts at any block add up to at most the total that the summary
      gives for it. While no position has ended they fall short of it by less than two units per
      position. */
  lemma BalancesWithinTotal(k: Params, s: Store, t: nat)
    requires Inv(k, s)
    ensures var total := SupplyPower(k.voteWeight, s.LastPoint().amount, BiasAt(k.maxBlock, s.book.locked, t));
      var sum := Sum(s.book.userPositions.Keys,
                     Voting.Balances(k.maxBlock, k.voteWeight, s.book.locked, s.book.owner, t));
      sum <= total && (NoneEnded(s.book, t) ==> total < sum + 2 * |s.book.owner|)
  {
    assert PartOk(k, s, Ledger) && PartOk(k, s, Summary);
    BalancesAreLive(k, s.book, t);
    LiveGap(k, s.book, t);
  }

  /** The supply is the sum of all locks and of all account totals; an account's total is the sum
      over its own positions. */
  lemma LedgersAgree(k: Params, s: Store, u: Account)
    requires Inv(k, s)
    ensures s.book.supply == TotalAmount(s.book.locked) == Sum(s.book.userPositions.Keys, UserLockedTerm(s.book))
    ensures Get(s.book.userLocked, u, 0) == Sum((set p | p in PositionsOf(s.book, u)), AmountTerm(s.book.locked))
  {
    assert PartOk(k, s, Ledger);
    SupplyIsUserTotal(s.book, k.maxPositions);
    assert UserTotal(s.book, u);
    forall p | p in s.book.locked && p !in s.book.owner
      ensures AmountTerm(s.book.locked)(p) == 0
    {
      assert IdOk(s.book, p);
    }
    OwnPositions(s.book, u, AmountTerm(s.book.locked), k.maxPositions);
  }

  /** Owners and position lists describe one partition, without duplicates; ids from the next one on
      are unused; what nobody owns is empty. */
  lemma OnePartition(k: Params, s: Store, u: Account, p: PositionId)
    requires Inv(k, s)
    ensures p in PositionsOf(s.book, u) <==> p in s.book.owner && s.book.owner[p] == u
    ensures Distinct(PositionsOf(s.book, u)) && |PositionsOf(s.book, u)| <= k.maxPositions
    ensures s.book.next <= p ==> p !in s.book.owner && p !in s.book.locked
    ensures p in s.book.locked && p !in s.book.owner ==> s.book.locked[p] == NO_LOCK
  {
    assert PartOk(k, s, Ledger);
    assert ListOk(s.book, k.maxPositions, u) && OnItsList(s.book, p) && IdOk(s.book, p);
  }

  /** Nobody has more locked than he holds. */
  lemma NobodyOverdrawn(k: Params, s: Store, u: Account)
    requires Inv(k, s)
    ensures Get(s.book.userLocked, u, 0) <= Held(s.free, k.token, u)
  {
    assert PartOk(k, s, Backing);
    assert BackedFor(k, s, u);
  }

  lemma WeightBound(m: pos, w: nat, amount: nat, left: nat, span: nat)
    requires left <= span
    ensures Weigh(w, amount / m * left) <= Weigh(w, amount * span / m)
  {
    MulMono(left, span, amount / m);
    MulDivBound(amount, m);
    MulMono(m * (amount / m), amount, span);
    DivMono(m * (amount / m * span), amount * span, m);
    DivExact(amount / m * span, m);
    MulMono(amount / m * left, amount * span / m, w);
    DivMono(w * (amount / m * left), w * (amount * span / m), ONE);
  }

  /** A position that holds something ends on a week boundary, at most the longest lock and a week
      ahead, which bounds its voting power. */
  lemma Horizon(k: Params, s: Store, p: PositionId)
    requires Inv(k, s) && p in s.book.owner && 0 < Get(s.book.locked, p, NO_LOCK).amount
    ensures var l := Get(s.book.locked, p, NO_LOCK);
      && 0 < l.end <= s.now + k.Span() && OnWeek(k.week, l.end)
      && Voting.Power(k.maxBlock, k.voteWeight, l, s.now)
           <= l.amount / 4 + Weigh(k.voteWeight, l.amount * k.Span() / k.maxBlock)
  {
    assert PartOk(k, s, Histories) && PartOk(k, s, Summary);
    assert PositionOk(k, s.book.locked, s.book.owner, s.userPointEpoch, s.userPointHistory, s.now, p);
    var l := s.book.locked[p];
    if s.now < l.end {
      WeightBound(k.maxBlock, k.voteWeight, l.amount, l.end - s.now, k.Span());
    }
  }

  /** The pool covers, for each currency, the stored rewards, what has accrued to voting power since
      it was last credited, and the rest of the running round. */
  lemma PoolSolvent(k: Params, s: Store, c: Currency)
    requires Inv(k, s)
    ensures var a, users := s.accounts, s.book.userPositions.Keys;
      k.multiplier * Sum(a.rewards.Keys, StoredTerm(a.rewards, c))
      + Sum(users, ClaimTerm(s.Balances(k), a.conf.rewardPerToken, a.paid, c))
      + k.multiplier * (Get(a.conf.rewardRate, c, 0) * (a.conf.periodFinish - a.conf.lastUpdateTime))
      <= k.multiplier * Held(s.free, c, k.pool)
    ensures s.accounts.conf.lastUpdateTime <= s.accounts.conf.periodFinish
  {
    var a, users := s.accounts, s.book.userPositions.Keys;
    assert PartOk(k, s, RewardPool);
    assert Owed(k.multiplier, a, s.Balances(k), users, c) <= k.multiplier * s.Pool(k)(c);
    Distribute(k.multiplier, Stored(a.rewards, c), Reserved(a.conf, c));
  }

  // ---- Left behind ---------------------------------------------------------------------

  predicate StepsOn(run: nat -> Store, i: nat) {
    Onward(run(i).now, run(i).nextExpiring, run(i + 1).now, run(i + 1).nextExpiring)
  }

  /** Once automatic withdrawal has moved past a block, no later call or hook takes it back there. */
  lemma {:induction false} NeverBack(run: nat -> Store, i: nat, j: nat, b: nat)
    requires i <= j && forall n: nat :: StepsOn(run, n)
    requires Passed(run(i).now, run(i).nextExpiring, b)
    ensures Passed(run(j).now, run(j).nextExpiring, b)
    decreases j
  {
    if i < j {
      NeverBack(run, i, j - 1, b);
      assert StepsOn(run, j - 1);
    }
  }
}
