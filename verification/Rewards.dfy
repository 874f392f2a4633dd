/** The reward accumulator: one growing reward-per-token figure per currency, paid out against
    each account's voting power, and the solvency of the pool account behind it. */
module Rewards {
  import opened Primitives
  import opened Sums

  type Amounts = map<Currency, Balance>

  datatype IncentiveConfig = IncentiveConfig(
    rewardRate: Amounts,
    rewardPerToken: Amounts,
    rewardsDuration: nat,
    periodFinish: nat,
    lastUpdateTime: nat,
    controller: Option<Account>,
    lastReward: seq<Currency>)

  /** What one update leaves behind. */
  datatype Accounts = Accounts(
    conf: IncentiveConfig,
    rewards: map<Account, Amounts>,
    paid: map<Account, Amounts>)

  function LastTimeApplicable(conf: IncentiveConfig, now: nat): nat {
    if now < conf.periodFinish then now else conf.periodFinish
  }

  /** How much one unit of voting power earns in currency c since the last update. */
  function Increment(mult: pos, conf: IncentiveConfig, now: nat, total: pos, c: Currency): nat {
    SatSub(LastTimeApplicable(conf, now), conf.lastUpdateTime) * Get(conf.rewardRate, c, 0) * mult / total
  }

  predicate AccrualFits(mult: pos, conf: IncentiveConfig, now: nat, total: nat) {
    total == 0 || forall c :: c in conf.rewardRate ==> Increment(mult, conf, now, total, c) <= U128_MAX
  }

  /** Reward per token with the currencies in `done` brought up to block now. */
  function AccrueOver(mult: pos, conf: IncentiveConfig, now: nat, total: pos, done: set<Currency>): Amounts {
    map c | c in conf.rewardPerToken.Keys + done ::
      if c in done
      then SatAdd(Get(conf.rewardPerToken, c, 0), Increment(mult, conf, now, total, c))
      else Get(conf.rewardPerToken, c, 0)
  }

  /** Reward per token brought up to block now, for total voting power `total`. */
  function Accrue(mult: pos, conf: IncentiveConfig, now: nat, total: nat): IncentiveConfig {
    if total == 0 then conf
    else conf.(rewardPerToken := AccrueOver(mult, conf, now, total, conf.rewardRate.Keys))
  }

  /** Accrual together with the new update time. */
  function Settle(mult: pos, conf: IncentiveConfig, now: nat, total: nat): IncentiveConfig {
    Accrue(mult, conf, now, total).(lastUpdateTime := LastTimeApplicable(conf, now))
  }

  /** Voting power times the reward per token not yet paid out for it. */
  function Pending(mult: pos, rpt: Amounts, paid: Amounts, balance: nat, c: Currency): nat {
    balance * SatSub(Get(rpt, c, 0), Get(paid, c, 0)) / mult
  }

  predicate PendingFits(mult: pos, rpt: Amounts, paid: Amounts, balance: nat) {
    forall c :: c in rpt ==> Pending(mult, rpt, paid, balance, c) <= U128_MAX
  }

  function EarnedOver(mult: pos, rpt: Amounts, stored: Amounts, paid: Amounts, balance: nat,
          done: set<Currency>): Amounts
  {
    map c | c in stored.Keys + done ::
      if c in done
      then SatAdd(Get(stored, c, 0), Pending(mult, rpt, paid, balance, c))
      else Get(stored, c, 0)
  }

  function Earned(mult: pos, rpt: Amounts, stored: Amounts, paid: Amounts, balance: nat): Amounts {
    EarnedOver(mult, rpt, stored, paid, balance, rpt.Keys)
  }

  lemma EarnedStep(mult: pos, rpt: Amounts, stored: Amounts, paid: Amounts, balance: nat, done: set<Currency>,
                   c: Currency)
    requires c !in done
    ensures var e := EarnedOver(mult, rpt, stored, paid, balance, done);
      EarnedOver(mult, rpt, stored, paid, balance, done + {c})
        == e[c := SatAdd(Get(e, c, 0), Pending(mult, rpt, paid, balance, c))]
  {
  }

  /** Crediting one account after a settlement. */
  function Credit(mult: pos, a: Accounts, who: Account, balance: nat): Accounts {
    var rpt := a.conf.rewardPerToken;
    var earned := Earned(mult, rpt, Get(a.rewards, who, map[]), Get(a.paid, who, map[]), balance);
    a.(rewards := if earned == map[] then a.rewards else a.rewards[who := earned],
       paid := a.paid[who := rpt])
  }

  /** A whole reward update, for one account or for none. */
  function Update(mult: pos, a: Accounts, who: Option<Account>, now: nat, total: nat, balance: nat): Accounts {
    var a' := a.(conf := Settle(mult, a.conf, now, total));
    if who.Some? then Credit(mult, a', who.value, balance) else a'
  }

  // ---- Settling twice in a block -------------------------------------------------------

  lemma SettledIncrement(mult: pos, conf: IncentiveConfig, now: nat, total: pos, c: Currency)
    requires conf.lastUpdateTime == LastTimeApplicable(conf, now)
    ensures Increment(mult, conf, now, total, c) == 0
  {
    var r := Get(conf.rewardRate, c, 0);
    assert 0 * r * mult == 0;
    DivExact(0, total);
  }

  /** Accruing again in the block of a settlement changes nothing. */
  lemma SettleThenAccrue(mult: pos, conf: IncentiveConfig, now: nat, total: nat)
    ensures var s := Settle(mult, conf, now, total);
            && Accrue(mult, s, now, total) == s && Settle(mult, s, now, total) == s
            && AccrualFits(mult, s, now, total)
  {
    var s := Settle(mult, conf, now, total);
    if total != 0 {
      forall c
        ensures Increment(mult, s, now, total, c) == 0
      {
        SettledIncrement(mult, s, now, total, c);
      }
      assert Accrue(mult, s, now, total).rewardPerToken == s.rewardPerToken;
    }
  }

  lemma PaidUpPending(mult: pos, rpt: Amounts, balance: nat, c: Currency)
    ensures Pending(mult, rpt, rpt, balance, c) == 0
  {
    assert balance * 0 == 0;
    DivExact(0, mult);
  }

  lemma EarnedTwice(mult: pos, rpt: Amounts, stored: Amounts, paid: Amounts, balance: nat)
    ensures var e := Earned(mult, rpt, stored, paid, balance);
            Earned(mult, rpt, e, rpt, balance) == e
  {
    var e := Earned(mult, rpt, stored, paid, balance);
    forall c | c in e
      ensures Get(Earned(mult, rpt, e, rpt, balance), c, 0) == e[c]
    {
      PaidUpPending(mult, rpt, balance, c);
    }
  }

  lemma CreditTwice(mult: pos, a: Accounts, who: Account, balance: nat)
    ensures var once := Credit(mult, a, who, balance);
            Credit(mult, once, who, balance) == once
  {
    var rpt, stored := a.conf.rewardPerToken, Get(a.rewards, who, map[]);
    EarnedTwice(mult, rpt, stored, Get(a.paid, who, map[]), balance);
  }

  /** Two updates in one block are one update. */
  lemma UpdateIdempotent(mult: pos, a: Accounts, who: Option<Account>, now: nat, total: nat, balance: nat)
    ensures var once := Update(mult, a, who, now, total, balance);
            Update(mult, once, who, now, total, balance) == once
  {
    SettleThenAccrue(mult, a.conf, now, total);
    if who.Some? {
      var settled := a.(conf := Settle(mult, a.conf, now, total));
      var once := Credit(mult, settled, who.value, balance);
      assert once.(conf := Settle(mult, once.conf, now, total)) == once;
      CreditTwice(mult, settled, who.value, balance);
    }
  }

  // ---- Fairness ------------------------------------------------------------------------

  lemma FloorScaled(x: nat, d: pos, c: nat)
    ensures c * (d * (x / d)) <= c * x <= c * (d * (x / d)) + c * d
  {
    MulDivBound(x, d);
    MulMono(d * (x / d), x, c);
    MulMono(x, d * (x / d) + d, c);
    Distribute(c, d * (x / d), d);
  }

  lemma Regroup(x: int, y: int, z: int)
    ensures x * (y * z) == y * (x * z)
  {
  }

  /** Dividing by the total first and by the multiplier later gives a share of `amount` that is never
      too large, and too small by less than the two roundings. */
  lemma ShareBounds(mult: pos, total: pos, amount: nat, b: nat, inc: nat, pending: nat)
    requires inc == amount * mult / total && pending == b * inc / mult
    ensures mult * (total * pending) <= mult * (b * amount) <= mult * (total * (pending + 1)) + b * total
  {
    FloorScaled(amount * mult, total, b);
    FloorScaled(b * inc, mult, total);
    Regroup(b, total, inc);
    Regroup(mult, b, amount);
    Regroup(total, mult, pending);
    Distribute(total, pending, 1);
    Distribute(mult, total * pending, total);
  }

  /** A currency without a rate pays nothing out, and nothing accrues. */
  lemma NoShare(mult: pos, conf: IncentiveConfig, now: nat, total: pos, b: nat, c: Currency)
    requires c !in conf.rewardRate
    ensures Pending(mult, Accrue(mult, conf, now, total).rewardPerToken, conf.rewardPerToken, b, c) == 0
    ensures mult * (total * 0) == mult * (b * 0) == 0 && 0 <= mult * (total * (0 + 1)) + b * total
  {
    assert b * 0 == 0 && total * 0 == 0 && mult * 0 == 0;
    DivExact(0, mult);
    MulMono(0, total, mult);
    MulMono(0, total, b);
  }

  /** An account with voting power `b` out of `total` that was paid up at the last update earns its
      share of what the elapsed blocks of the round pay out in currency c: never more than that, and less only by
      the rounding of the accumulator and of the credit. */
  lemma FairShare(mult: pos, conf: IncentiveConfig, now: nat, total: pos, b: nat, c: Currency, elapsed: nat)
    requires elapsed == (if now < conf.periodFinish then now else conf.periodFinish) - conf.lastUpdateTime
    requires Get(conf.rewardPerToken, c, 0) + elapsed * Get(conf.rewardRate, c, 0) * mult / total <= U128_MAX
    ensures var paidOut := elapsed * Get(conf.rewardRate, c, 0);
      var pending := Pending(mult, Accrue(mult, conf, now, total).rewardPerToken, conf.rewardPerToken, b, c);
      mult * (total * pending) <= mult * (b * paidOut) <= mult * (total * (pending + 1)) + b * total
  {
    if c in conf.rewardRate {
      var inc := Increment(mult, conf, now, total, c);
      var rpt := Accrue(mult, conf, now, total).rewardPerToken;
      assert rpt[c] == Get(conf.rewardPerToken, c, 0) + inc;
      ShareBounds(mult, total, elapsed * conf.rewardRate[c], b, inc, Pending(mult, rpt, conf.rewardPerToken, b, c));
    } else {
      NoShare(mult, conf, now, total, b, c);
      assert elapsed * 0 == 0;
    }
  }
}
