/** What the reward pool owes, scaled by the multiplier, and why no step of the pallet ever
    lets that debt outgrow the pool. */
module Solvency {
  import opened Primitives
  import opened Sums
  import opened Rewards

  type Power = Account -> int

  /** Reward per token that account u has not been paid for yet. */
  function Gap(rpt: Amounts, paid: map<Account, Amounts>, c: Currency, u: Account): nat {
    SatSub(Get(rpt, c, 0), Get(Get(paid, u, map[]), c, 0))
  }

  function ClaimTerm(bal: Power, rpt: Amounts, paid: map<Account, Amounts>, c: Currency): Account -> int {
    u => bal(u) * Gap(rpt, paid, c, u)
  }

  function StoredTerm(rewards: map<Account, Amounts>, c: Currency): Account -> int {
    u => Get(Get(rewards, u, map[]), c, 0)
  }

  ghost function Unclaimed(bal: Power, users: set<Account>, rpt: Amounts, paid: map<Account, Amounts>, c: Currency): int
  {
    Sum(users, ClaimTerm(bal, rpt, paid, c))
  }

  ghost function Stored(rewards: map<Account, Amounts>, c: Currency): int {
    Sum(rewards.Keys, StoredTerm(rewards, c))
  }

  /** Rewards of the running period that have not accrued yet. */
  function Reserved(conf: IncentiveConfig, c: Currency): int {
    Get(conf.rewardRate, c, 0) * (conf.periodFinish - conf.lastUpdateTime)
  }

  /** Everything currency c's pool has to cover, times the multiplier. */
  ghost function Owed(mult: pos, a: Accounts, bal: Power, users: set<Account>, c: Currency): int {
    mult * (Stored(a.rewards, c) + Reserved(a.conf, c)) + Unclaimed(bal, users, a.conf.rewardPerToken, a.paid, c)
  }

  ghost predicate Solvent(mult: pos, a: Accounts, bal: Power, users: set<Account>, pool: Currency -> nat) {
    forall c :: Owed(mult, a, bal, users, c) <= mult * pool(c)
  }

  /** The update time never runs ahead of the block or of the period. */
  predicate Timely(conf: IncentiveConfig, now: nat) {
    conf.lastUpdateTime <= now && conf.lastUpdateTime <= conf.periodFinish
  }

  // ---- Accrual -------------------------------------------------------------------------

  /** Accrual hands out at most what was reserved for the elapsed blocks. */
  lemma IncrementAffordable(mult: pos, conf: IncentiveConfig, now: nat, total: pos, c: Currency)
    requires Timely(conf, now)
    ensures total * Increment(mult, conf, now, total, c)
         <= mult * (Reserved(conf, c) - Reserved(Settle(mult, conf, now, total), c))
  {
    var lta, r := LastTimeApplicable(conf, now), Get(conf.rewardRate, c, 0);
    var dt := lta - conf.lastUpdateTime;
    MulDivBound(dt * r * mult, total);
    assert Reserved(conf, c) - Reserved(Settle(mult, conf, now, total), c) == dt * r by {
      Distribute(r, conf.periodFinish - lta, dt);
    }
    assert dt * r * mult == mult * (dt * r);
  }

  lemma ClaimGrows(b: nat, g: nat, g': nat, inc: nat)
    requires g' <= g + inc
    ensures b * g' <= b * g + inc * b
  {
    MulMono(g', g + inc, b);
    Distribute(b, g, inc);
  }

  /** When reward per token grows by `inc`, unclaimed rewards grow by at most `inc` per unit of power. */
  lemma UnclaimedGrows(bal: Power, users: set<Account>, rpt: Amounts, rpt': Amounts,
                       paid: map<Account, Amounts>, c: Currency, inc: nat, total: nat)
    requires forall u :: u in users ==> 0 <= bal(u)
    requires Sum(users, bal) <= total
    requires Get(rpt', c, 0) <= Get(rpt, c, 0) + inc
    ensures Unclaimed(bal, users, rpt', paid, c) <= Unclaimed(bal, users, rpt, paid, c) + inc * total
  {
    var f, f' := ClaimTerm(bal, rpt, paid, c), ClaimTerm(bal, rpt', paid, c);
    var bound := (u: Account) => f(u) + inc * bal(u);
    forall u | u in users
      ensures f'(u) <= bound(u)
    {
      ClaimGrows(bal(u), Gap(rpt, paid, c, u), Gap(rpt', paid, c, u), inc);
    }
    SumLe(users, f', bound);
    SumLinear(users, bound, f, bal, inc);
    MulMono(Sum(users, bal), total, inc);
  }

  lemma AccruedBy(mult: pos, conf: IncentiveConfig, now: nat, total: pos, c: Currency)
    ensures Get(Settle(mult, conf, now, total).rewardPerToken, c, 0)
         <= Get(conf.rewardPerToken, c, 0) + Increment(mult, conf, now, total, c)
  {
  }

  /** Without voting power nothing accrues; time that passes is lost to the round. */
  lemma SettleOwesNothing(mult: pos, a: Accounts, bal: Power, users: set<Account>, now: nat, c: Currency)
    requires Timely(a.conf, now)
    ensures Owed(mult, a.(conf := Settle(mult, a.conf, now, 0)), bal, users, c) <= Owed(mult, a, bal, users, c)
  {
    var conf' := Settle(mult, a.conf, now, 0);
    MulMono(conf'.periodFinish - conf'.lastUpdateTime, a.conf.periodFinish - a.conf.lastUpdateTime,
            Get(a.conf.rewardRate, c, 0));
    ShiftedProduct(mult, Stored(a.rewards, c), Reserved(conf', c), Reserved(a.conf, c), 0);
  }

  /** With voting powers that add up to at most `total`, settling never raises the debt. */
  lemma SettleOwes(mult: pos, a: Accounts, bal: Power, users: set<Account>, now: nat, total: nat, c: Currency)
    requires Timely(a.conf, now)
    requires forall u :: u in users ==> 0 <= bal(u)
    requires Sum(users, bal) <= total
    ensures Owed(mult, a.(conf := Settle(mult, a.conf, now, total)), bal, users, c) <= Owed(mult, a, bal, users, c)
  {
    if total == 0 {
      SettleOwesNothing(mult, a, bal, users, now, c);
    } else {
      var conf' := Settle(mult, a.conf, now, total);
      var inc := Increment(mult, a.conf, now, total, c);
      AccruedBy(mult, a.conf, now, total, c);
      UnclaimedGrows(bal, users, a.conf.rewardPerToken, conf'.rewardPerToken, a.paid, c, inc, total);
      IncrementAffordable(mult, a.conf, now, total, c);
      ShiftedProduct(mult, Stored(a.rewards, c), Reserved(conf', c), Reserved(a.conf, c), total * inc);
    }
  }

  lemma ShiftedProduct(m: pos, s: int, after: int, before: int, x: int)
    requires x <= m * (before - after)
    ensures m * (s + after) + x <= m * (s + before)
  {
    Distribute(m, s + after, before - after);
  }

  // ---- Crediting an account ------------------------------------------------------------

  /** Paying an account up removes its whole claim. */
  lemma UnclaimedAfterCredit(bal: Power, users: set<Account>, rpt: Amounts, paid: map<Account, Amounts>,
                             who: Account, c: Currency)
    ensures Unclaimed(bal, users, rpt, paid[who := rpt], c)
         == Unclaimed(bal, users, rpt, paid, c) - (if who in users then bal(who) * Gap(rpt, paid, c, who) else 0)
  {
    var f, f' := ClaimTerm(bal, rpt, paid, c), ClaimTerm(bal, rpt, paid[who := rpt], c);
    forall u | u in users && u != who
      ensures f(u) == f'(u)
    {
    }
    if who in users {
      assert users + {who} == users;
      SumUpdate(users, f, users, f', who);
      assert f'(who) == bal(who) * 0;
    } else {
      SumSame(users, f', f);
    }
  }

  /** Moving an account's unclaimed share into its stored rewards rounds in the pool's favour,
      whatever part `balance` of its power is credited. */
  lemma CreditOwes(mult: pos, a: Accounts, bal: Power, users: set<Account>, who: Account, balance: nat, c: Currency)
    requires forall u :: u in users ==> 0 <= bal(u)
    requires if who in users then balance <= bal(who) else balance == 0
    ensures Owed(mult, Credit(mult, a, who, balance), bal, users, c) <= Owed(mult, a, bal, users, c)
  {
    var rpt, paid := a.conf.rewardPerToken, a.paid;
    var a', gap := Credit(mult, a, who, balance), Gap(rpt, paid, c, who);
    var power := if who in users then bal(who) else 0;
    StoredAfterCredit(mult, a, who, balance, c);
    UnclaimedAfterCredit(bal, users, rpt, paid, who, c);
    PendingAffordable(mult, balance, gap, power);
    assert who !in users ==> power * gap == 0;
    MovedToStored(mult, Stored(a.rewards, c), Stored(a'.rewards, c), Reserved(a.conf, c),
                  Unclaimed(bal, users, rpt, paid, c), balance * gap / mult, power * gap);
  }

  /** What is taken off the claims covers what is added to the stored rewards. */
  lemma MovedToStored(m: pos, stored: int, stored': int, reserved: int, unclaimed: int, pending: int, claim: int)
    requires stored' <= stored + pending && m * pending <= claim
    ensures m * (stored' + reserved) + (unclaimed - claim) <= m * (stored + reserved) + unclaimed
  {
    MulMono(stored' + reserved, stored + reserved + pending, m);
    Distribute(m, stored + reserved, pending);
  }

  lemma PendingAffordable(mult: pos, balance: nat, gap: nat, power: int)
    requires balance <= power
    ensures mult * (balance * gap / mult) <= power * gap
  {
    MulDivBound(balance * gap, mult);
    MulMono(balance, power, gap);
  }

  lemma StoredAfterCredit(mult: pos, a: Accounts, who: Account, balance: nat, c: Currency)
    ensures Stored(Credit(mult, a, who, balance).rewards, c)
         <= Stored(a.rewards, c) + Pending(mult, a.conf.rewardPerToken, Get(a.paid, who, map[]), balance, c)
  {
    var a', rpt := Credit(mult, a, who, balance), a.conf.rewardPerToken;
    var s, s' := StoredTerm(a.rewards, c), StoredTerm(a'.rewards, c);
    if a'.rewards != a.rewards {
      forall u | u in a.rewards.Keys && u != who
        ensures s(u) == s'(u)
      {
      }
      SumUpdate(a.rewards.Keys, s, a'.rewards.Keys, s', who);
    }
  }

  /** A reward update keeps the pool solvent. */
  lemma UpdateSolvent(mult: pos, a: Accounts, bal: Power, users: set<Account>, pool: Currency -> nat,
                      who: Option<Account>, now: nat, total: nat, balance: nat)
    requires Solvent(mult, a, bal, users, pool) && Timely(a.conf, now)
    requires forall u :: u in users ==> 0 <= bal(u)
    requires Sum(users, bal) <= total
    requires who.Some? ==> if who.value in users then balance <= bal(who.value) else balance == 0
    ensures Solvent(mult, Update(mult, a, who, now, total, balance), bal, users, pool)
    ensures Timely(Update(mult, a, who, now, total, balance).conf, now)
  {
    var settled := a.(conf := Settle(mult, a.conf, now, total));
    forall c
      ensures Owed(mult, Update(mult, a, who, now, total, balance), bal, users, c) <= mult * pool(c)
    {
      SettleOwes(mult, a, bal, users, now, total, c);
      if who.Some? {
        CreditOwes(mult, settled, bal, users, who.value, balance, c);
      }
    }
  }

  // ---- Everything else that can happen -------------------------------------------------

  /** Powers may shrink freely, and the power of an account that has just been paid up may
      change at will: it is owed nothing. */
  lemma PowerChangeSolvent(mult: pos, a: Accounts, bal: Power, users: set<Account>,
                           bal': Power, users': set<Account>, pool: Currency -> nat)
    requires Solvent(mult, a, bal, users, pool) && users <= users'
    requires forall u :: u in users ==> 0 <= bal(u)
    requires forall u :: u in users' ==>
      (u in users && bal'(u) <= bal(u)) || bal'(u) == 0 || Get(a.paid, u, map[]) == a.conf.rewardPerToken
    ensures Solvent(mult, a, bal', users', pool)
  {
    forall c
      ensures Owed(mult, a, bal', users', c) <= mult * pool(c)
    {
      var rpt := a.conf.rewardPerToken;
      var f, f' := ClaimTerm(bal, rpt, a.paid, c), ClaimTerm(bal', rpt, a.paid, c);
      var upper := (u: Account) => if u in users then f(u) else 0;
      forall u | u in users'
        ensures f'(u) <= upper(u)
      {
        if u in users && bal'(u) <= bal(u) {
          MulMono(bal'(u), bal(u), Gap(rpt, a.paid, c, u));
        } else if u in users {
          assert f'(u) == 0;
          MulMono(0, bal(u), Gap(rpt, a.paid, c, u));
        }
      }
      SumLe(users', f', upper);
      SumSuperset(users, users', upper);
      SumSame(users, upper, f);
    }
  }

  /** Paying an account its stored rewards takes exactly that much off the debt. */
  lemma ClaimOwes(mult: pos, a: Accounts, bal: Power, users: set<Account>, who: Account, c: Currency)
    requires who in a.rewards
    ensures var paidOut := Get(a.rewards[who], c, 0);
            Owed(mult, a.(rewards := a.rewards - {who}), bal, users, c) == Owed(mult, a, bal, users, c) - mult * paidOut
  {
    var s := StoredTerm(a.rewards, c);
    var rewards' := a.rewards - {who};
    SumRemove(a.rewards.Keys, s, who);
    assert rewards'.Keys == a.rewards.Keys - {who};
    SumSame(rewards'.Keys, StoredTerm(rewards', c), s);
    Distribute(mult, Stored(rewards', c) + Reserved(a.conf, c), s(who));
  }

  /** A pool that pays an account its stored rewards stays solvent. */
  lemma ClaimSolvent(mult: pos, a: Accounts, bal: Power, users: set<Account>, pool: Currency -> nat,
                     pool': Currency -> nat, who: Account)
    requires Solvent(mult, a, bal, users, pool) && who in a.rewards
    requires forall c :: pool'(c) + Get(a.rewards[who], c, 0) == pool(c)
    ensures Solvent(mult, a.(rewards := a.rewards - {who}), bal, users, pool')
  {
    var a' := a.(rewards := a.rewards - {who});
    forall c
      ensures Owed(mult, a', bal, users, c) <= mult * pool'(c)
    {
      assert Owed(mult, a, bal, users, c) <= mult * pool(c);
      ClaimOwes(mult, a, bal, users, who, c);
      Distribute(mult, pool'(c), Get(a.rewards[who], c, 0));
    }
  }

  lemma UnclaimedNonNeg(bal: Power, users: set<Account>, rpt: Amounts, paid: map<Account, Amounts>, c: Currency)
    requires forall u :: u in users ==> 0 <= bal(u)
    ensures 0 <= Unclaimed(bal, users, rpt, paid, c)
  {
    var f := ClaimTerm(bal, rpt, paid, c);
    forall u | u in users
      ensures 0 <= f(u)
    {
      MulMono(0, bal(u), Gap(rpt, paid, c, u));
    }
    SumNonNeg(users, f);
  }

  lemma StoredTermBound(rewards: map<Account, Amounts>, who: Account, c: Currency)
    ensures Get(Get(rewards, who, map[]), c, 0) <= Stored(rewards, c)
  {
    var s := StoredTerm(rewards, c);
    forall u | u in rewards.Keys
      ensures 0 <= s(u)
    {
    }
    SumNonNeg(rewards.Keys, s);
    if who in rewards {
      SumTerm(rewards.Keys, s, who);
    }
  }

  lemma OwedNonNeg(mult: pos, a: Accounts, bal: Power, users: set<Account>, c: Currency)
    requires forall u :: u in users ==> 0 <= bal(u)
    requires a.conf.lastUpdateTime <= a.conf.periodFinish
    ensures 0 <= Owed(mult, a, bal, users, c)
  {
    UnclaimedNonNeg(bal, users, a.conf.rewardPerToken, a.paid, c);
    StoredTermBound(a.rewards, Account(0), c);
    MulMono(0, a.conf.periodFinish - a.conf.lastUpdateTime, Get(a.conf.rewardRate, c, 0));
    MulMono(0, Stored(a.rewards, c) + Reserved(a.conf, c), mult);
  }

  /** A solvent pool holds at least the stored rewards of every account. */
  lemma StoredCovered(mult: pos, a: Accounts, bal: Power, users: set<Account>,
          pool: Currency -> nat, who: Account, c: Currency)
    requires Solvent(mult, a, bal, users, pool) && a.conf.lastUpdateTime <= a.conf.periodFinish
    requires forall u :: u in users ==> 0 <= bal(u)
    ensures Get(Get(a.rewards, who, map[]), c, 0) <= pool(c)
  {
    UnclaimedNonNeg(bal, users, a.conf.rewardPerToken, a.paid, c);
    StoredTermBound(a.rewards, who, c);
    var rate, span := Get(a.conf.rewardRate, c, 0), a.conf.periodFinish - a.conf.lastUpdateTime;
    MulMono(0, span, rate);
    var due := Stored(a.rewards, c) + Reserved(a.conf, c);
    assert Owed(mult, a, bal, users, c) <= mult * pool(c);
    CancelFactor(mult, due, pool(c));
  }

  /** A solvent pool holds at least what is reserved for the rest of the round. */
  lemma ReservedCovered(mult: pos, a: Accounts, bal: Power, users: set<Account>, pool: Currency -> nat, c: Currency)
    requires Solvent(mult, a, bal, users, pool)
    requires forall u :: u in users ==> 0 <= bal(u)
    ensures Reserved(a.conf, c) <= pool(c)
  {
    UnclaimedNonNeg(bal, users, a.conf.rewardPerToken, a.paid, c);
    StoredTermBound(a.rewards, Account(0), c);
    assert Owed(mult, a, bal, users, c) <= mult * pool(c);
    CancelFactor(mult, Stored(a.rewards, c) + Reserved(a.conf, c), pool(c));
  }
}
