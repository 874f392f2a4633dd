/** Steps that change no lock, on the storage as a value: reward updates, claims and rounds, transfers,
    the passing of time, and lookups in the past. */
module RewardCalls {
  import opened Primitives
  import opened Sums
  import opened Lines
  import opened Voting
  import opened History
  import opened LockLedger
  import opened ExpiryIndex
  import opened Rewards
  import opened Solvency
  import opened Notify
  import opened Tokens
  import opened Invariants
  import opened Calls
  import opened State
  import opened LockCalls

  // ---- A new block ---------------------------------------------------------------------

  /** The powers of all owned positions now. */
  ghost function PowersNow(k: Params, s: Store): map<(PositionId, nat), nat> {
    map p | p in s.book.owner ::
      (p, s.now) := CurrentPower(k.voteWeight, s.book.locked, s.userPointEpoch, s.userPointHistory, p, s.now)
  }

  /** Time passing keeps the invariant: powers only decay, and what they were goes on record. */
  lemma NewBlockInv(k: Params, s: Store, n: nat)
    requires Inv(k, s) && s.now < n
    ensures Inv(k, s.(now := n, recorded := s.recorded + PowersNow(k, s)))
  {
    var s' := s.(now := n, recorded := s.recorded + PowersNow(k, s));
    forall part
      ensures PartOk(k, s', part)
    {
      assert PartOk(k, s, part);
      match part
      case Ledger =>
      case Summary =>
      case Histories => NewBlockHistories(k, s, s', n);
      case Backing =>
        forall u
          ensures BackedFor(k, s', u)
        {
          assert BackedFor(k, s, u);
        }
      case RewardPool => NewBlockRewards(k, s, s', n);
    }
  }

  lemma NewBlockHistories(k: Params, s: Store, s': Store, n: nat)
    requires Inv(k, s) && s.now < n && s' == s.(now := n, recorded := s.recorded + PowersNow(k, s))
    ensures PartOk(k, s', Histories)
  {
    assert PartOk(k, s, Histories) && PartOk(k, s, Ledger);
    forall p
      ensures PositionOk(k, s'.book.locked, s'.book.owner, s'.userPointEpoch, s'.userPointHistory, s'.now, p)
    {
      assert PositionOk(k, s.book.locked, s.book.owner, s.userPointEpoch, s.userPointHistory, s.now, p);
    }
    forall p, t: nat
      ensures RecordedId(s', p, t)
      ensures RecordOk(k.voteWeight, s'.book.locked, s'.book.owner, s'.userPointEpoch, s'.userPointHistory,
                       s'.recorded, s'.now, p, t)
    {
      assert RecordedId(s, p, t) && IdOk(s.book, p);
      assert RecordOk(k.voteWeight, s.book.locked, s.book.owner, s.userPointEpoch, s.userPointHistory,
                      s.recorded, s.now, p, t);
      assert PositionOk(k, s.book.locked, s.book.owner, s.userPointEpoch, s.userPointHistory, s.now, p);
      if (p, t) in PowersNow(k, s) {
        assert t == s.now && p in s.book.owner;
        CurrentReadable(k, s.book.locked, s.book.owner, s.userPointEpoch, s.userPointHistory, s.now, p);
        PastIsCurrent(k.voteWeight, s.book.locked, s.userPointEpoch, s.userPointHistory, p, t);
      }
    }
  }

  lemma NewBlockRewards(k: Params, s: Store, s': Store, n: nat)
    requires Inv(k, s) && s.now < n && s' == s.(now := n, recorded := s'.recorded)
    ensures PartOk(k, s', RewardPool)
  {
    assert PartOk(k, s, RewardPool);
    var users := s.book.userPositions.Keys;
    forall u | u in users
      ensures 0 <= s.Balances(k)(u) && s'.Balances(k)(u) <= s.Balances(k)(u)
    {
      BalancesNonNeg(k.maxBlock, k.voteWeight, s.book.locked, s.book.owner, s.now, u);
      BalancesDecay(k.maxBlock, k.voteWeight, s.book.locked, s.book.owner, s.now, n, u);
    }
    PowerChangeSolvent(k.multiplier, s.accounts, s.Balances(k), users, s'.Balances(k), users, s.Pool(k));
    PoolGrows(k.multiplier, s.accounts, s'.Balances(k), users, s.Pool(k), s'.Pool(k));
  }

  // ---- Calls that change no lock -------------------------------------------------------

  /** Nothing but the expiry index changes. */
  lemma SameButIndex(k: Params, s: Store, s': Store)
    requires Inv(k, s) && s' == s.(expiring := s'.expiring, nextExpiring := s'.nextExpiring)
    ensures Inv(k, s')
  {
    forall part
      ensures PartOk(k, s', part)
    {
      assert PartOk(k, s, part);
      match part
      case Backing =>
        forall u
          ensures BackedFor(k, s', u)
        {
          assert BackedFor(k, s, u);
        }
      case Histories => SameHistories(k, s, s');
      case _ =>
    }
  }

  lemma SameHistories(k: Params, s: Store, s': Store)
    requires PartOk(k, s, Histories)
    requires s'.now == s.now && s'.book == s.book && s'.recorded == s.recorded
    requires s'.userPointEpoch == s.userPointEpoch && s'.userPointHistory == s.userPointHistory
    ensures PartOk(k, s', Histories)
  {
    forall p, t: nat
      ensures RecordedId(s', p, t)
    {
      assert RecordedId(s, p, t);
    }
  }

  /** Nothing but balances, rewards and the reward configuration changes. */
  lemma SameLocks(k: Params, s: Store, s': Store)
    requires Inv(k, s) && s' == s.(accounts := s'.accounts, free := s'.free)
    requires PartOk(k, s', Backing) && PartOk(k, s', RewardPool)
    ensures Inv(k, s')
  {
    forall part
      ensures PartOk(k, s', part)
    {
      assert PartOk(k, s, part);
      if part == Histories {
        SameHistories(k, s, s');
      }
    }
  }

  /** Only one account has paid anything, and it still holds what it has locked. */
  lemma StillBackedAfterPaying(k: Params, s: Store, s': Store, from: Account)
    requires PartOk(k, s, Backing) && s'.book == s.book && BackedFor(k, s', from)
    requires forall u :: u != from ==> Held(s.free, k.token, u) <= Held(s'.free, k.token, u)
    ensures PartOk(k, s', Backing)
  {
    forall u
      ensures BackedFor(k, s', u)
    {
      assert BackedFor(k, s, u);
    }
  }

  /** The balance a reward update credits between calls. */
  function CreditedNow(k: Params, s: Store, who: Option<Account>): nat {
    if who.None? then 0 else
      CurrentTotal(k.voteWeight, s.book.locked, s.userPointEpoch, s.userPointHistory,
                   PositionsOf(s.book, who.value), s.now)
  }

  lemma CreditedFits(k: Params, s: Store, who: Account)
    requires Inv(k, s)
    ensures CreditedNow(k, s, Some(who)) == s.Balances(k)(who)
    ensures who !in s.book.userPositions ==> CreditedNow(k, s, Some(who)) == 0
  {
    assert PartOk(k, s, Ledger) && PartOk(k, s, Histories);
    BalanceIsPower(k, s.book, s.userPointEpoch, s.userPointHistory, s.now, who);
    if who !in s.book.userPositions {
      NoListNoPower(k, s.book, s.now, who);
    }
  }

  /** Between calls the summary lets the total be computed. */
  lemma CurveKnown(k: Params, s: Store)
    requires Inv(k, s)
    ensures var c := LineOf(k.maxBlock, s.book.locked);
      && Tracks(k.week, c, s.LastPoint(), s.slopeChanges) && s.LastPoint().bias <= I128_MAX
      && s.LastPoint().block <= s.now
      && EndedFrom(c, s.LastPoint().block + k.Span())
      && SupplyPower(k.voteWeight, s.LastPoint().amount, c.bias(s.now)) == TotalNow(k, s)
  {
    assert PartOk(k, s, Summary);
    LineOfEnded(k.maxBlock, s.book.locked, s.LastPoint().block + k.Span());
  }

  /** The storage after a reward update between calls. */
  ghost function Updated(k: Params, s: Store, who: Option<Account>): Store {
    s.(accounts := Update(k.multiplier, s.accounts, who, s.now, TotalNow(k, s), CreditedNow(k, s, who)))
  }

  lemma UpdatedRewards(k: Params, s: Store, who: Option<Account>)
    requires Inv(k, s)
    ensures PartOk(k, Updated(k, s, who), RewardPool)
  {
    var s', users := Updated(k, s, who), s.book.userPositions.Keys;
    assert PartOk(k, s, Ledger) && PartOk(k, s, RewardPool);
    AllNonNeg(k.maxBlock, k.voteWeight, s.book, s.now);
    BalancesFit(k, s.book, s.now);
    if who.Some? {
      CreditedFits(k, s, who.value);
    }
    UpdateSolvent(k.multiplier, s.accounts, s.Balances(k), users, s.Pool(k), who, s.now,
                  TotalNow(k, s), CreditedNow(k, s, who));
    PoolGrows(k.multiplier, s'.accounts, s'.Balances(k), users, s.Pool(k), s'.Pool(k));
  }

  /** A reward update keeps the invariant. */
  lemma UpdatedInv(k: Params, s: Store, who: Option<Account>)
    requires Inv(k, s)
    ensures Inv(k, Updated(k, s, who))
  {
    assert PartOk(k, s, Backing);
    UpdatedRewards(k, s, who);
    StillBackedAfterPaying(k, s, Updated(k, s, who), k.pool);
    SameLocks(k, s, Updated(k, s, who));
  }

  function Due(s: Store, who: Account, c: Currency): nat {
    Get(Get(s.accounts.rewards, who, map[]), c, 0)
  }

  /** A claim can always be paid. */
  lemma ClaimCovered(k: Params, s: Store, who: Account, c: Currency)
    requires Inv(k, s)
    ensures Due(s, who, c) <= Held(s.free, c, k.pool)
    ensures Get(s.book.userLocked, k.pool, 0) == 0
  {
    assert PartOk(k, s, RewardPool) && PartOk(k, s, Backing);
    AllNonNeg(k.maxBlock, k.voteWeight, s.book, s.now);
    StoredCovered(k.multiplier, s.accounts, s.Balances(k), s.book.userPositions.Keys, s.Pool(k), who, c);
  }

  /** The effect of a claim on the storage of a settled pool. */
  ghost predicate Claimed(k: Params, s: Store, s': Store, who: Account) {
    && s' == s.(accounts := s.accounts.(rewards := s.accounts.rewards - {who}), free := s'.free)
    && forall c :: Moved(s.free, s'.free, k.pool, who, Due(s, who, c), c)
  }

  lemma ClaimInv(k: Params, s: Store, s': Store, who: Account)
    requires Inv(k, s) && who != k.pool && who in s.accounts.rewards && Claimed(k, s, s', who)
    ensures Inv(k, s')
  {
    assert PartOk(k, s, RewardPool) && PartOk(k, s, Backing);
    forall c
      ensures s'.Pool(k)(c) + Get(s.accounts.rewards[who], c, 0) == s.Pool(k)(c)
    {
      assert Moved(s.free, s'.free, k.pool, who, Due(s, who, c), c);
    }
    ClaimSolvent(k.multiplier, s.accounts, s.Balances(k), s.book.userPositions.Keys, s.Pool(k), s'.Pool(k), who);
    assert Moved(s.free, s'.free, k.pool, who, Due(s, who, k.token), k.token);
    assert s'.Balances(k) == s.Balances(k);
    StillBackedAfterPaying(k, s, s', k.pool);
    SameLocks(k, s, s');
  }

  /** The effect of starting a round on the storage of a settled pool. */
  ghost predicate RoundStarted(k: Params, s: Store, s': Store, from: Account, list: seq<Currency>) {
    && s' == s.(accounts := s'.accounts, free := s'.free)
    && Renewed(s.accounts, s'.accounts, s.now, HeldBy(s.free, from), list)
    && (forall c :: Moved(s.free, s'.free, from, k.pool, PutIn(s.free, from, list)(c), c))
    && BackedFor(k, s', from)
    && s'.accounts.conf.controller == Some(from) && s'.accounts.conf.lastReward == list
  }

  lemma RoundInv(k: Params, s: Store, s': Store, from: Account, list: seq<Currency>)
    requires Inv(k, s) && from != k.pool && RoundStarted(k, s, s', from, list)
    requires Distinct(list) && ListsAll(s.accounts.conf, list)
    ensures Inv(k, s')
  {
    var bal, users := s.Balances(k), s.book.userPositions.Keys;
    var reward := HeldBy(s.free, from);
    assert PartOk(k, s, RewardPool) && PartOk(k, s, Backing);
    assert Covers(s.accounts.conf, list, s.now);
    RenewedListsAll(s.accounts, s'.accounts, s.now, reward, list);
    NotifySolvent(k.multiplier, s.accounts, s'.accounts, bal, users, s.Pool(k), s.now, reward, list);
    forall c
      ensures PoolAfter(s.Pool(k), reward, list)(c) <= s'.Pool(k)(c)
    {
      assert Moved(s.free, s'.free, from, k.pool, PutIn(s.free, from, list)(c), c);
    }
    assert s'.Balances(k) == bal;
    PoolGrows(k.multiplier, s'.accounts, bal, users, PoolAfter(s.Pool(k), reward, list), s'.Pool(k));
    assert Moved(s.free, s'.free, from, k.pool, PutIn(s.free, from, list)(k.token), k.token);
    StillBackedAfterPaying(k, s, s', from);
    SameLocks(k, s, s');
  }

  /** A transfer between other accounts that respects what its sender has locked. */
  lemma TransferInv(k: Params, s: Store, s': Store, c: Currency, from: Account, to: Account, amount: nat)
    requires Inv(k, s) && from != k.pool && (amount <= Held(s.free, c, from) || from == to)
    requires s' == s.(free := Sent(s.free, c, from, to, amount)) && BackedFor(k, s', from)
    ensures Inv(k, s')
  {
    assert PartOk(k, s, RewardPool) && PartOk(k, s, Backing);
    assert s'.Balances(k) == s.Balances(k);
    SentGrows(s.free, c, from, to, amount);
    PoolGrows(k.multiplier, s'.accounts, s.Balances(k), s.book.userPositions.Keys, s.Pool(k), s'.Pool(k));
    StillBackedAfterPaying(k, s, s', from);
    SameLocks(k, s, s');
  }

  /** What a claim does: a reward update, and the payment of what is then stored, unless the
      account has no voting power. */
  ghost predicate RewardsTaken(k: Params, s: Store, s': Store, who: Account) {
    var s1 := Updated(k, s, Some(who));
    if CreditedNow(k, s, Some(who)) == 0 || who !in s1.accounts.rewards then s' == s1
    else Claimed(k, s1, s', who)
  }

  lemma UpdatedSettled(k: Params, s: Store)
    ensures var conf, conf' := s.accounts.conf, Updated(k, s, None).accounts.conf;
      && conf'.lastUpdateTime == LastTimeApplicable(conf', s.now)
      && conf' == conf.(rewardPerToken := conf'.rewardPerToken, lastUpdateTime := conf'.lastUpdateTime)
  {
  }

  lemma RewardsTakenInv(k: Params, s: Store, s': Store, who: Account)
    requires Inv(k, s) && who != k.pool && RewardsTaken(k, s, s', who)
    ensures Inv(k, s') && s' == s.(accounts := s'.accounts, free := s'.free)
  {
    var s1 := Updated(k, s, Some(who));
    UpdatedInv(k, s, Some(who));
    if CreditedNow(k, s, Some(who)) != 0 && who in s1.accounts.rewards {
      ClaimInv(k, s1, s', who);
    }
  }

  /** In a solvent pool the leftover of a running round is there to be distributed again. */
  lemma LeftoverCovered(k: Params, s: Store, c: Currency)
    requires Inv(k, s) && s.accounts.conf.lastUpdateTime == LastTimeApplicable(s.accounts.conf, s.now)
    ensures Get(s.accounts.conf.rewardRate, c, 0) * SatSub(s.accounts.conf.periodFinish, s.now)
      <= Held(s.free, c, k.pool)
  {
    var a, bal, users := s.accounts, s.Balances(k), s.book.userPositions.Keys;
    assert PartOk(k, s, RewardPool) && PartOk(k, s, Backing);
    AllNonNeg(k.maxBlock, k.voteWeight, s.book, s.now);
    ReservedCovered(k.multiplier, a, bal, users, s.Pool(k), c);
    if s.accounts.conf.periodFinish <= s.now {
      assert Get(s.accounts.conf.rewardRate, c, 0) * 0 == 0;
    }
  }

  function DurationAfter(conf: IncentiveConfig, duration: Option<nat>): nat {
    if duration.Some? then duration.value else conf.rewardsDuration
  }

  /** The storage with a controller, and possibly a duration, for coming rounds. */
  function Configured(s: Store, from: Account, duration: Option<nat>): Store {
    s.(accounts := s.accounts.(conf := s.accounts.conf.(
      rewardsDuration := DurationAfter(s.accounts.conf, duration),
      controller := Some(from))))
  }

  lemma SettingsSolvent(mult: pos, a: Accounts, a': Accounts, bal: Solvency.Power, users: set<Account>,
                        pool: Currency -> nat)
    requires Solvent(mult, a, bal, users, pool)
    requires a' == a.(conf := a.conf.(rewardsDuration := a'.conf.rewardsDuration, controller := a'.conf.controller))
    ensures Solvent(mult, a', bal, users, pool)
  {
    forall c
      ensures Owed(mult, a', bal, users, c) <= mult * pool(c)
    {
      assert Owed(mult, a, bal, users, c) <= mult * pool(c);
    }
  }

  /** Other settings of the reward pool may change at any time. */
  lemma SettingsInv(k: Params, s: Store, s': Store, duration: nat, controller: Option<Account>)
    requires Inv(k, s) && controller != Some(k.pool)
    requires s' == s.(accounts := s.accounts.(
                        conf := s.accounts.conf.(rewardsDuration := duration, controller := controller)))
    ensures Inv(k, s')
  {
    assert PartOk(k, s', RewardPool) by {
      assert PartOk(k, s, RewardPool) && s'.Balances(k) == s.Balances(k);
      SettingsSolvent(k.multiplier, s.accounts, s'.accounts, s.Balances(k), s.book.userPositions.Keys, s.Pool(k));
    }
    assert PartOk(k, s', Backing) by {
      assert PartOk(k, s, Backing);
      StillBackedAfterPaying(k, s, s', k.pool);
    }
    SameLocks(k, s, s');
  }

  /** The currencies in the list have their new rates, and what the controller held of them is in
      the pool. */
  ghost predicate RoundGiven(k: Params, free: Holdings, free': Holdings, who: Account, conf: IncentiveConfig,
                             conf': IncentiveConfig, list: seq<Currency>, remaining: nat)
  {
    && (list == [] || conf.rewardsDuration > 0)
    && conf' == conf.(rewardRate := conf'.rewardRate)
    && (forall c :: Get(conf'.rewardRate, c, 0) == RateAfter(conf, remaining, HeldBy(free, who), list, c))
    && (forall c :: Moved(free, free', who, k.pool, PutIn(free, who, list)(c), c))
  }

  predicate CoveredIn(k: Params, free: Holdings, conf: IncentiveConfig, remaining: nat, c: Currency) {
    Get(conf.rewardRate, c, 0) * remaining <= Held(free, c, k.pool)
  }

  /** The pool holds what the running round has left over. */
  ghost predicate Covered(k: Params, free: Holdings, conf: IncentiveConfig, remaining: nat) {
    forall c :: CoveredIn(k, free, conf, remaining, c)
  }

  /** Why a controller cannot give what he holds of a currency to a covered pool: a round without duration has no
      rates, what is locked stays with him, and the pool's balance has to fit. */
  function GiveError(k: Params, free: Holdings, userLocked: map<Account, nat>, who: Account, duration: nat, c: Currency)
    : Option<Error>
  {
    if duration == 0 then Some(Overflow)
    else if Held(free, c, who) == 0 then None
    else if c == k.token && Get(userLocked, who, 0) != 0 then Some(NotEnoughBalance)
    else if Held(free, c, k.pool) + Held(free, c, who) > U128_MAX then Some(Overflow)
    else None
  }

  /** Why a round is not started in a covered pool, if it is not: the first currency that cannot be given. */
  function RoundError(k: Params, free: Holdings, userLocked: map<Account, nat>, who: Account, duration: nat,
          list: seq<Currency>): (e: Option<Error>)
    ensures e.None? <==> forall c :: c in list ==> GiveError(k, free, userLocked, who, duration, c).None?
    ensures e.Some? && Get(userLocked, who, 0) == 0 ==> e.value == Overflow
  {
    if list == [] then None else
      var e := GiveError(k, free, userLocked, who, duration, list[0]);
      if e.Some? then e else RoundError(k, free, userLocked, who, duration, list[1..])
  }

  lemma NotYetGiven(k: Params, free: Holdings, free': Holdings, who: Account, conf: IncentiveConfig,
                    conf': IncentiveConfig, list: seq<Currency>, i: nat, remaining: nat)
    requires i < |list| && Distinct(list) && RoundGiven(k, free, free', who, conf, conf', list[..i], remaining)
    ensures list[i] !in list[..i]
    ensures Held(free', list[i], who) == Held(free, list[i], who)
    ensures Held(free', list[i], k.pool) == Held(free, list[i], k.pool)
    ensures Get(conf'.rewardRate, list[i], 0) == Get(conf.rewardRate, list[i], 0)
  {
    assert Get(conf'.rewardRate, list[i], 0) == RateAfter(conf, remaining, HeldBy(free, who), list[..i], list[i]);
    assert Moved(free, free', who, k.pool, PutIn(free, who, list[..i])(list[i]), list[i]);
  }

  lemma GivenMore(k: Params, free: Holdings, mid: Holdings, free': Holdings, who: Account, conf: IncentiveConfig,
                  rates: Amounts, list: seq<Currency>, i: nat, remaining: nat)
    requires who != k.pool && i < |list| && list[i] !in list[..i] && conf.rewardsDuration > 0
    requires RoundGiven(k, free, mid, who, conf, conf.(rewardRate := rates), list[..i], remaining)
    requires Held(mid, list[i], who) == Held(free, list[i], who)
    requires Held(mid, list[i], who) == 0 || Held(mid, list[i], k.pool) + Held(mid, list[i], who) <= U128_MAX
    requires free' == Sent(mid, list[i], who, k.pool, Held(mid, list[i], who))
    ensures RoundGiven(k, free, free', who, conf,
                       conf.(rewardRate := rates[list[i] := NewRate(conf, remaining, Held(free, list[i], who),
                                                                    list[i])]),
                       list[..i + 1], remaining)
  {
    var c, x, x' := list[i], PutIn(free, who, list[..i]), PutIn(free, who, list[..i + 1]);
    assert list[..i + 1] == list[..i] + [c];
    var rates' := rates[c := NewRate(conf, remaining, Held(free, c, who), c)];
    forall d
      ensures Get(rates', d, 0) == RateAfter(conf, remaining, HeldBy(free, who), list[..i + 1], d)
    {
      assert Get(rates, d, 0) == RateAfter(conf, remaining, HeldBy(free, who), list[..i], d);
    }
    NextMoved(free, mid, free', who, k.pool, x, x', c);
  }

  /** A settled pool holds the leftover of its round. */
  lemma RoundFunded(k: Params, s: Store)
    requires Inv(k, s) && s.accounts.conf.lastUpdateTime == LastTimeApplicable(s.accounts.conf, s.now)
    ensures Covered(k, s.free, s.accounts.conf, SatSub(s.accounts.conf.periodFinish, s.now))
  {
    forall c
      ensures CoveredIn(k, s.free, s.accounts.conf, SatSub(s.accounts.conf.periodFinish, s.now), c)
    {
      LeftoverCovered(k, s, c);
    }
  }

  lemma RoundBacked(k: Params, s: Store, free': Holdings, who: Account, list: seq<Currency>,
          conf': IncentiveConfig, remaining: nat)
    requires Inv(k, s) && RoundGiven(k, s.free, free', who, s.accounts.conf, conf', list, remaining)
    requires k.token in list && Held(s.free, k.token, who) != 0 ==> Get(s.book.userLocked, who, 0) == 0
    ensures Get(s.book.userLocked, who, 0) <= Held(free', k.token, who)
  {
    assert PartOk(k, s, Backing);
    assert BackedFor(k, s, who);
    assert Moved(s.free, free', who, k.pool, PutIn(s.free, who, list)(k.token), k.token);
  }

  /** The configuration of a round that starts now. */
  function Started(conf: IncentiveConfig, now: nat, who: Account, list: seq<Currency>): IncentiveConfig {
    conf.(lastUpdateTime := now, periodFinish := now + conf.rewardsDuration, controller := Some(who),
          lastReward := list)
  }

  /** A funded round is started, and keeps the invariant if it lists every paid currency. */
  lemma RoundDone(k: Params, s: Store, free': Holdings, who: Account, list: seq<Currency>, conf': IncentiveConfig)
    requires Inv(k, s) && who != k.pool && Distinct(list)
    requires s.accounts.conf.lastUpdateTime == LastTimeApplicable(s.accounts.conf, s.now)
    requires RoundGiven(k, s.free, free', who, s.accounts.conf, conf', list,
                        SatSub(s.accounts.conf.periodFinish, s.now))
    requires k.token in list && Held(s.free, k.token, who) != 0 ==> Get(s.book.userLocked, who, 0) == 0
    ensures var s' := s.(accounts := s.accounts.(conf := Started(conf', s.now, who, list)), free := free');
      RoundStarted(k, s, s', who, list) && (ListsAll(s.accounts.conf, list) ==> Inv(k, s'))
  {
    var s' := s.(accounts := s.accounts.(conf := Started(conf', s.now, who, list)), free := free');
    RoundBacked(k, s, free', who, list, conf', SatSub(s.accounts.conf.periodFinish, s.now));
    if ListsAll(s.accounts.conf, list) {
      RoundInv(k, s, s', who, list);
    }
  }

  /** What the query reports for an account. */
  ghost function Reported(k: Params, s: Store, who: Account): Amounts {
    Preview(k.multiplier, Accrue(k.multiplier, s.accounts.conf, s.now, TotalNow(k, s)).rewardPerToken,
            Get(s.accounts.paid, who, map[]), CreditedNow(k, s, Some(who)))
  }

  /** The reward update of a claim adds to what is due exactly what the query reports. */
  lemma ReportExact(k: Params, s: Store, who: Account, c: Currency)
    ensures Due(Updated(k, s, Some(who)), who, c) == SatAdd(Due(s, who, c), Get(Reported(k, s, who), c, 0))
  {
    PreviewIsUpdate(k.multiplier, s.accounts, who, s.now, TotalNow(k, s), CreditedNow(k, s, Some(who)), c);
  }

  // ---- Lookups in the past -------------------------------------------------------------

  lemma GlobalOrdered(k: Params, s: Store, epoch: nat)
    requires Inv(k, s) && epoch <= s.epoch
    ensures Ordered(GlobalBlocks(s.pointHistory), epoch)
  {
    assert PartOk(k, s, Summary);
    forall i | 0 < i <= epoch
      ensures InOrder(GlobalBlocks(s.pointHistory), i)
    {
      assert InOrder(GlobalBlocks(s.pointHistory), i);
    }
  }

  lemma PositionOrdered(k: Params, s: Store, p: PositionId, t: nat)
    requires Inv(k, s)
    ensures Ordered(UserBlocks(s.userPointHistory, p), Get(s.userPointEpoch, p, 0))
    ensures p in s.book.owner && (p, t) in s.recorded ==>
      s.recorded[(p, t)] == PastPower(k.voteWeight, s.book.locked, s.userPointEpoch, s.userPointHistory, p, t)
      && PastReadable(s.book.locked, s.userPointEpoch, s.userPointHistory, p, t)
  {
    assert PartOk(k, s, Histories);
    assert PositionOk(k, s.book.locked, s.book.owner, s.userPointEpoch, s.userPointHistory, s.now, p);
    assert RecordOk(k.voteWeight, s.book.locked, s.book.owner, s.userPointEpoch, s.userPointHistory,
                    s.recorded, s.now, p, t);
  }

  /** What is known of a position at block t: its power is on record, or it had no lock yet. */
  ghost predicate KnownAt(s: Store, p: PositionId, t: nat) {
    (p, t) in s.recorded || p !in s.userPointEpoch || t < UserPoint(s.userPointHistory, p, 1).block
  }

  ghost predicate AllKnown(s: Store, who: Account, t: nat) {
    forall p :: p in PositionsOf(s.book, who) ==> KnownAt(s, p, t)
  }

  /** What is on record for an account's positions at block t, added up. */
  ghost function RecordedTotal(s: Store, who: Account, t: nat): int {
    Sum((set p | p in PositionsOf(s.book, who)), RecordedTerm(s, t))
  }

  ghost function RecordedTerm(s: Store, t: nat): PositionId -> int {
    p => Get(s.recorded, (p, t), 0)
  }

  function PastTerm(w: nat, s: Store, t: nat): PositionId -> int {
    p => PastPower(w, s.book.locked, s.userPointEpoch, s.userPointHistory, p, t)
  }

  lemma {:induction false} PastTotalIsSum(w: nat, s: Store, ps: seq<PositionId>, t: nat)
    requires Distinct(ps)
    ensures PastTotal(w, s.book.locked, s.userPointEpoch, s.userPointHistory, ps, t)
         == Sum((set p | p in ps), PastTerm(w, s, t))
  {
    if ps != [] {
      var q, rest := ps[|ps| - 1], ps[..|ps| - 1];
      LastMember(ps);
      PastTotalIsSum(w, s, rest, t);
      SumRemove((set p | p in ps), PastTerm(w, s, t), q);
    }
  }

  /** Before its first point a position had no power. */
  lemma NoPowerBefore(k: Params, s: Store, p: PositionId, t: nat)
    requires PositionOk(k, s.book.locked, s.book.owner, s.userPointEpoch, s.userPointHistory, s.now, p)
    requires p in s.book.owner
    requires p !in s.userPointEpoch || t < UserPoint(s.userPointHistory, p, 1).block
    ensures PastPower(k.voteWeight, s.book.locked, s.userPointEpoch, s.userPointHistory, p, t) == 0
    ensures PastReadable(s.book.locked, s.userPointEpoch, s.userPointHistory, p, t)
  {
    var blocks, epoch := UserBlocks(s.userPointHistory, p), Get(s.userPointEpoch, p, 0);
    if p in s.userPointEpoch {
      forall i | 0 < i <= epoch
        ensures t < blocks(i)
      {
        OrderedPair(blocks, epoch, 1, i);
      }
    }
    EpochAtUnique(blocks, epoch, t, 0);
    assert k.voteWeight * 0 == 0;
  }

  /** An account's power at a block that has passed is what was recorded then for the positions that are
      still its own. */
  lemma AccountPast(k: Params, s: Store, who: Account, t: nat)
    requires Inv(k, s) && AllKnown(s, who, t)
    ensures PastTotal(k.voteWeight, s.book.locked, s.userPointEpoch, s.userPointHistory, PositionsOf(s.book, who), t)
         == RecordedTotal(s, who, t)
    ensures AllPastReadable(PositionsOf(s.book, who), s.book.locked, s.userPointEpoch, s.userPointHistory, t)
  {
    var ps := PositionsOf(s.book, who);
    assert PartOk(k, s, Ledger) && PartOk(k, s, Histories);
    assert ListOk(s.book, k.maxPositions, who);
    PastTotalIsSum(k.voteWeight, s, ps, t);
    forall p | p in ps
      ensures PastTerm(k.voteWeight, s, t)(p) == RecordedTerm(s, t)(p)
      ensures PastReadable(s.book.locked, s.userPointEpoch, s.userPointHistory, p, t)
    {
      assert PositionOk(k, s.book.locked, s.book.owner, s.userPointEpoch, s.userPointHistory, s.now, p);
      if (p, t) in s.recorded {
        PositionOrdered(k, s, p, t);
      } else {
        NoPowerBefore(k, s, p, t);
      }
    }
    SumSame((set p | p in ps), PastTerm(k.voteWeight, s, t), RecordedTerm(s, t));
  }

  // ---- Other steps ---------------------------------------------------------------------

  lemma AutoRenewable(k: Params, s: Store)
    requires Inv(k, s)
    ensures Renewable(k, s.accounts.conf)
  {
    assert PartOk(k, s, RewardPool);
  }

  lemma StillBackedFor(k: Params, s: Store, s': Store, c: Currency, from: Account, to: Account, amount: nat)
    requires Inv(k, s) && (amount <= Held(s.free, c, from) || from == to)
    requires s' == s.(free := Sent(s.free, c, from, to, amount))
    requires c == k.token && amount != 0 && from != to ==>
      Get(s.book.userLocked, from, 0) + amount <= Held(s.free, c, from)
    ensures BackedFor(k, s', from)
  {
    assert PartOk(k, s, Backing);
    assert BackedFor(k, s, from);
  }

  lemma ConfigInv(k: Params, s: Store, s': Store)
    requires Inv(k, s) && s' == s.(config := s'.config)
    ensures Inv(k, s')
  {
    forall part
      ensures PartOk(k, s', part)
    {
      assert PartOk(k, s, part);
      match part
      case Backing =>
        forall u
          ensures BackedFor(k, s', u)
        {
          assert BackedFor(k, s, u);
        }
      case Histories => SameHistories(k, s, s');
      case _ =>
    }
  }

  /** Storage before anything has happened. */
  predicate Genesis(s: Store) {
    && s.book == LockBook(0, map[], map[], 0, map[], map[]) && s.epoch == 0 && s.pointHistory == map[]
    && s.slopeChanges == map[]
    && s.userPointEpoch == map[] && s.userPointHistory == map[] && s.expiring == map[] && s.nextExpiring == 0
    && s.accounts == Accounts(IncentiveConfig(map[], map[], 0, 0, 0, None, []), map[], map[])
  }

  lemma GenesisInv(k: Params, s: Store)
    requires Genesis(s) && s.recorded == map[]
    ensures Inv(k, s) && IndexOk(s) && CursorSound(s.expiring, s.nextExpiring)
  {
    LineOfEnded(k.maxBlock, s.book.locked, 0);
    LineOfWeekly(k.maxBlock, k.week, s.book.locked, 0);
    forall part
      ensures PartOk(k, s, part)
    {
      match part
      case Summary =>
        assert Ended(LineOf(k.maxBlock, s.book.locked), 0);
        GenesisChanges(k);
      case RewardPool =>
        forall c
          ensures Owed(k.multiplier, s.accounts, s.Balances(k), {}, c) == 0
        {
          assert k.multiplier * 0 == 0;
        }
      case _ =>
    }
  }

  lemma GenesisChanges(k: Params)
    ensures forall t: nat :: ChangeRight(LineOf(k.maxBlock, map[]), map[], t)
  {
  }
}
