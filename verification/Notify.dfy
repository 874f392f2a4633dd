/** Starting a reward round, and the preview of pending rewards. */
module Notify {
  import opened Primitives
  import opened Sums
  import opened Rewards
  import opened Solvency

  /** What a round pays per block: the new reward and the leftover of the running round, spread
      over the duration. */
  function NewRate(conf: IncentiveConfig, remaining: nat, reward: nat, c: Currency): Balance
    requires conf.rewardsDuration > 0
  {
    var total := SatAdd(reward, Get(conf.rewardRate, c, 0) * remaining);
    QuotientAtMost(total, conf.rewardsDuration);
    total / conf.rewardsDuration
  }

  /** The checked form. The pool always holds the leftover, so the balance check never fires in a
      solvent pool. */
  function CheckedRate(conf: IncentiveConfig, remaining: nat, reward: Balance, inPool: Balance,
          c: Currency): (r: Result<Balance>)
    ensures r.Ok? ==> conf.rewardsDuration > 0 && r.value == NewRate(conf, remaining, reward, c)
    ensures var left := Get(conf.rewardRate, c, 0) * remaining;
      r.Ok? <==> left <= U128_MAX && SatAdd(reward, left) <= SatAdd(inPool, reward) && conf.rewardsDuration > 0
    ensures r.Err? ==> r.error == if Get(conf.rewardRate, c, 0) * remaining <= U128_MAX
        && SatAdd(inPool, reward) < SatAdd(reward, Get(conf.rewardRate, c, 0) * remaining)
      then NotEnoughBalance else Overflow
    ensures r.Err? && Get(conf.rewardRate, c, 0) * remaining <= inPool ==> r.error == Overflow
  {
    var leftover :- if remaining == 0 then Ok(0) else U128(Get(conf.rewardRate, c, 0) * remaining);
    assert remaining == 0 ==> Get(conf.rewardRate, c, 0) * remaining == 0;
    var total := SatAdd(reward, leftover);
    if SatAdd(inPool, reward) < total then Err(NotEnoughBalance)
    else if conf.rewardsDuration == 0 then Err(Overflow)
    else Ok(NewRate(conf, remaining, reward, c))
  }

  lemma QuotientAtMost(x: nat, d: pos)
    ensures x / d <= x
  {
    MulDivBound(x, d);
    MulMono(1, d, x / d);
  }

  /** The rate spreads what there is over the duration and leaves less than one unit a block. */
  lemma RateSpreads(conf: IncentiveConfig, remaining: nat, reward: nat, c: Currency)
    requires conf.rewardsDuration > 0
    ensures var there, rate, d := reward + Get(conf.rewardRate, c, 0) * remaining,
        NewRate(conf, remaining, reward, c), conf.rewardsDuration;
      there <= U128_MAX ==> d * rate <= there < d * rate + d
  {
    var total := SatAdd(reward, Get(conf.rewardRate, c, 0) * remaining);
    MulDivBound(total, conf.rewardsDuration);
  }

  /** The rate of currency c after a round is started with a controller that holds `reward`. */
  function RateAfter(conf: IncentiveConfig, remaining: nat,
          reward: Currency -> nat, list: seq<Currency>, c: Currency): nat
  {
    if c in list && conf.rewardsDuration > 0 then NewRate(conf, remaining, reward(c), c) else Get(conf.rewardRate, c, 0)
  }

  /** The configuration of a settled pool after a round is started at block now. */
  ghost predicate Notified(conf: IncentiveConfig, now: nat,
          reward: Currency -> nat, list: seq<Currency>, conf': IncentiveConfig)
  {
    && (forall c :: Get(conf'.rewardRate, c, 0) == RateAfter(conf, SatSub(conf.periodFinish, now), reward, list, c))
    && conf'.lastUpdateTime == now && conf'.periodFinish == now + conf.rewardsDuration
    && conf'.rewardPerToken == conf.rewardPerToken && conf'.rewardsDuration == conf.rewardsDuration
  }

  /** The pool after the controller's balances of the listed currencies have been moved in. */
  function PoolAfter(pool: Currency -> nat, reward: Currency -> nat, list: seq<Currency>): Currency -> nat {
    c => if c in list then pool(c) + reward(c) else pool(c)
  }

  /** Every currency that is being paid out is listed, or its payments do not get longer. */
  predicate Covers(conf: IncentiveConfig, list: seq<Currency>, now: nat) {
    forall c :: c in conf.rewardRate && conf.rewardRate[c] > 0 ==>
      c in list || conf.rewardsDuration <= SatSub(conf.periodFinish, now)
  }

  /** The list names every currency that is being paid out. */
  predicate ListsAll(conf: IncentiveConfig, list: seq<Currency>) {
    forall c :: c in conf.rewardRate && conf.rewardRate[c] > 0 ==> c in list
  }

  /** What an unlisted currency keeps paying beyond the end of the running period. */
  function Overhang(conf: IncentiveConfig, now: nat, c: Currency): int {
    Get(conf.rewardRate, c, 0) * (conf.rewardsDuration - SatSub(conf.periodFinish, now))
  }

  lemma QuotientTimes(x: nat, d: pos)
    ensures x / d * d <= x
  {
    MulDivBound(x, d);
  }

  /** The change of a settled configuration into one with a new round. */
  ghost predicate Renewed(a: Accounts, a': Accounts, now: nat, reward: Currency -> nat, list: seq<Currency>) {
    && Notified(a.conf, now, reward, list, a'.conf) && a'.rewards == a.rewards && a'.paid == a.paid
    && a.conf.lastUpdateTime == LastTimeApplicable(a.conf, now) && (list == [] || a.conf.rewardsDuration > 0)
  }

  /** Afterwards again every currency that is being paid out is on the list. */
  lemma RenewedListsAll(a: Accounts, a': Accounts, now: nat, reward: Currency -> nat, list: seq<Currency>)
    requires Renewed(a, a', now, reward, list) && ListsAll(a.conf, list)
    ensures ListsAll(a'.conf, list)
  {
    forall c | c in a'.conf.rewardRate && a'.conf.rewardRate[c] > 0
      ensures c in list
    {
      assert Get(a'.conf.rewardRate, c, 0) == RateAfter(a.conf, SatSub(a.conf.periodFinish, now), reward, list, c);
    }
  }

  /** A listed currency owes at most what the controller has put in. */
  lemma ListedOwes(mult: pos, a: Accounts, a': Accounts, bal: Power, users: set<Account>, now: nat,
                   reward: Currency -> nat, list: seq<Currency>, c: Currency)
    requires Renewed(a, a', now, reward, list) && c in list
    ensures Owed(mult, a', bal, users, c) <= Owed(mult, a, bal, users, c) + mult * reward(c)
  {
    var rate, rate' := Get(a.conf.rewardRate, c, 0), Get(a'.conf.rewardRate, c, 0);
    var remaining := SatSub(a.conf.periodFinish, now);
    QuotientTimes(SatAdd(reward(c), rate * remaining), a.conf.rewardsDuration);
    assert Reserved(a.conf, c) == rate * remaining;
    assert Reserved(a'.conf, c) <= rate * remaining + reward(c);
    ShiftBound(mult, Stored(a.rewards, c), Reserved(a.conf, c), Reserved(a'.conf, c), reward(c));
  }

  lemma ShiftBound(m: pos, s: int, x: int, y: int, d: int)
    requires y <= x + d
    ensures m * (s + y) <= m * (s + x) + m * d
  {
    MulMono(s + y, s + x + d, m);
    Distribute(m, s + x, d);
  }

  /** An unlisted currency owes its overhang on top. */
  lemma UnlistedOwes(mult: pos, a: Accounts, a': Accounts, bal: Power, users: set<Account>, now: nat,
                     reward: Currency -> nat, list: seq<Currency>, c: Currency)
    requires Renewed(a, a', now, reward, list) && c !in list
    ensures Owed(mult, a', bal, users, c) == Owed(mult, a, bal, users, c) + mult * Overhang(a.conf, now, c)
  {
    var rate := Get(a.conf.rewardRate, c, 0);
    var remaining: int, duration: int := SatSub(a.conf.periodFinish, now), a.conf.rewardsDuration;
    Distribute(rate, remaining, duration - remaining);
    assert Reserved(a.conf, c) == rate * remaining;
    assert Get(a'.conf.rewardRate, c, 0) == rate;
    assert Reserved(a'.conf, c) == rate * duration;
    assert Reserved(a'.conf, c) == Reserved(a.conf, c) + Overhang(a.conf, now, c);
    Distribute(mult, Stored(a.rewards, c) + Reserved(a.conf, c), Overhang(a.conf, now, c));
  }

  /** Starting a round keeps the pool solvent if every currency being paid out is covered. */
  lemma NotifySolvent(mult: pos, a: Accounts, a': Accounts, bal: Power, users: set<Account>, pool: Currency -> nat,
                      now: nat, reward: Currency -> nat, list: seq<Currency>)
    requires Renewed(a, a', now, reward, list)
    requires Covers(a.conf, list, now) && Solvent(mult, a, bal, users, pool)
    ensures Solvent(mult, a', bal, users, PoolAfter(pool, reward, list))
  {
    forall c
      ensures Owed(mult, a', bal, users, c) <= mult * PoolAfter(pool, reward, list)(c)
    {
      assert Owed(mult, a, bal, users, c) <= mult * pool(c);
      if c in list {
        ListedOwes(mult, a, a', bal, users, now, reward, list, c);
        Distribute(mult, pool(c), reward(c));
      } else {
        UnlistedOwes(mult, a, a', bal, users, now, reward, list, c);
        var rate := Get(a.conf.rewardRate, c, 0);
        var longer := a.conf.rewardsDuration - SatSub(a.conf.periodFinish, now);
        ProductNotPositive(mult, rate, longer);
      }
    }
  }

  lemma ProductNotPositive(m: pos, rate: nat, longer: int)
    requires rate == 0 || longer <= 0
    ensures m * (rate * longer) <= 0
  {
    if longer <= 0 {
      MulMono(longer, 0, rate);
    }
    MulMono(rate * longer, 0, m);
  }

  lemma ProductPositive(m: pos, rate: pos, longer: pos)
    ensures m <= m * (rate * longer)
  {
    MulMono(1, longer, rate);
    MulMono(1, rate * longer, m);
  }

  /** The smallest pool that covers what is owed. */
  ghost function TightPool(mult: pos, a: Accounts, bal: Power, users: set<Account>): Currency -> nat {
    c => Max0((Owed(mult, a, bal, users, c) + mult - 1) / mult)
  }

  lemma TightPoolBounds(mult: pos, x: int)
    requires 0 <= x
    ensures x <= mult * ((x + mult - 1) / mult) < x + mult
  {
    MulDivBound(x + mult - 1, mult);
  }

  /** The condition is exact: whatever the stored rewards and voting powers are, starting a round
      keeps every solvent pool solvent if and only if every currency being paid out is covered. */
  lemma NotifyExact(mult: pos, a: Accounts, a': Accounts, bal: Power, users: set<Account>,
                    now: nat, reward: Currency -> nat, list: seq<Currency>)
    requires Renewed(a, a', now, reward, list)
    requires forall u :: u in users ==> 0 <= bal(u)
    ensures Covers(a.conf, list, now) <==>
      forall pool: Currency -> nat :: Solvent(mult, a, bal, users, pool) ==>
        Solvent(mult, a', bal, users, PoolAfter(pool, reward, list))
  {
    if Covers(a.conf, list, now) {
      forall pool: Currency -> nat | Solvent(mult, a, bal, users, pool)
        ensures Solvent(mult, a', bal, users, PoolAfter(pool, reward, list))
      {
        NotifySolvent(mult, a, a', bal, users, pool, now, reward, list);
      }
    } else {
      var pool := TightPool(mult, a, bal, users);
      forall c
        ensures Owed(mult, a, bal, users, c) <= mult * pool(c) < Owed(mult, a, bal, users, c) + mult
      {
        OwedNonNeg(mult, a, bal, users, c);
        TightPoolBounds(mult, Owed(mult, a, bal, users, c));
      }
      var c :| c in a.conf.rewardRate && a.conf.rewardRate[c] > 0 && c !in list
        && a.conf.rewardsDuration > SatSub(a.conf.periodFinish, now);
      UnlistedOwes(mult, a, a', bal, users, now, reward, list, c);
      ProductPositive(mult, a.conf.rewardRate[c], a.conf.rewardsDuration - SatSub(a.conf.periodFinish, now));
      assert Owed(mult, a', bal, users, c) > mult * PoolAfter(pool, reward, list)(c);
      assert Solvent(mult, a, bal, users, pool);
      assert !Solvent(mult, a', bal, users, PoolAfter(pool, reward, list));
    }
  }

  // ---- Preview -------------------------------------------------------------------------

  /** What the query reports: per currency, the reward an update would add. */
  function Preview(mult: pos, rpt: Amounts, paid: Amounts, balance: nat): Amounts {
    PreviewOver(mult, rpt, paid, balance, rpt.Keys)
  }

  function PreviewOver(mult: pos, rpt: Amounts, paid: Amounts, balance: nat, done: set<Currency>): Amounts {
    map c | c in rpt && c in done && Get(paid, c, 0) <= rpt[c] :: Min(Pending(mult, rpt, paid, balance, c), U128_MAX)
  }

  lemma PreviewAt(mult: pos, rpt: Amounts, stored: Amounts, paid: Amounts, balance: nat, c: Currency)
    ensures Get(Earned(mult, rpt, stored, paid, balance), c, 0)
         == SatAdd(Get(stored, c, 0), Get(Preview(mult, rpt, paid, balance), c, 0))
  {
    if c in rpt && rpt[c] < Get(paid, c, 0) {
      assert balance * 0 == 0;
      DivExact(0, mult);
    }
  }

  /** An update adds to each stored reward exactly what the query reported in the same block. */
  lemma PreviewIsUpdate(mult: pos, a: Accounts, who: Account, now: nat, total: nat, balance: nat, c: Currency)
    ensures var rpt := Accrue(mult, a.conf, now, total).rewardPerToken;
            var reported := Get(Preview(mult, rpt, Get(a.paid, who, map[]), balance), c, 0);
            var a' := Update(mult, a, Some(who), now, total, balance);
            Get(Get(a'.rewards, who, map[]), c, 0) == SatAdd(Get(Get(a.rewards, who, map[]), c, 0), reported)
  {
    var rpt, paid := Accrue(mult, a.conf, now, total).rewardPerToken, Get(a.paid, who, map[]);
    PreviewAt(mult, rpt, Get(a.rewards, who, map[]), paid, balance, c);
  }
}
