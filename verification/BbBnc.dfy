/** The bbBNC pallet: storage, dispatched calls and block hooks. */
module BbBncPallet {
  import opened Primitives
  import opened Sums
  import opened Weeks
  import opened Curve
  import opened Lines
  import opened Voting
  import opened History
  import opened LockLedger
  import opened ExpiryIndex
  import opened Rewards
  import opened Notify
  import opened Tokens
  import opened EarlyRedeem
  import opened Invariants
  import opened Calls
  import opened State
  import opened LockCalls
  import opened RewardCalls
  import opened Headroom
  import opened Payouts

  /** What a call answers: its own refusal if there is one, then whether its amounts fit, then the gauge's word. */
  function Answer(refusal: Option<Error>, fits: bool, gaugeOk: bool): Result<()> {
    if refusal.Some? then Err(refusal.value) else if !fits then Err(Overflow)
    else if !gaugeOk then Err(GaugeRefused) else Ok(())
  }

  class BbBnc {
    const k: Params

    var config: Config
    var now: nat
    var free: Holdings

    // Locks
    var supply: nat
    var locked: Locks
    var userLocked: map<Account, nat>
    var position: PositionId
    var userPositions: map<Account, seq<PositionId>>
    var positionOwner: map<PositionId, Account>

    // Curve
    var epoch: nat
    var pointHistory: GlobalHistory
    var slopeChanges: map<nat, int>
    var userPointEpoch: map<PositionId, nat>
    var userPointHistory: UserHistory

    // Expiry
    var expiringPositions: Index
    var nextExpiringBlock: nat

    // Rewards
    var incentive: IncentiveConfig
    var rewards: map<Account, Amounts>
    var paid: map<Account, Amounts>

    // Powers at the end of past blocks, for stating that lookups in the past are stable
    ghost var recorded: map<(PositionId, nat), nat>

    function Book(): LockBook
      reads `supply, `locked, `userLocked, `position, `userPositions, `positionOwner
    {
      LockBook(supply, locked, userLocked, position, userPositions, positionOwner)
    }

    function AccountsState(): Accounts
      reads `incentive, `rewards, `paid
    {
      Accounts(incentive, rewards, paid)
    }

    function Snapshot(): Store
      reads this
    {
      Store(config, now, free, Book(), epoch, pointHistory, slopeChanges, userPointEpoch, userPointHistory,
            expiringPositions, nextExpiringBlock, AccountsState(), recorded)
    }

    /** What holds between calls, apart from the expiry index. */
    ghost predicate Core()
      reads this
    {
      k.Sane() && Inv(k, Snapshot())
    }

    ghost predicate Valid()
      reads this
    {
      Core() && IndexOk(Snapshot())
    }

    /** A checkpoint still reaches the current block. */
    predicate CanCheckpoint()
      reads `epoch, `pointHistory, `now
    {
      Reaches(k, epoch, pointHistory, now)
    }

    // ---- Supply ------------------------------------------------------------------------

    function LastPoint(): Point
      reads `epoch, `pointHistory
    {
      GlobalPoint(pointHistory, epoch)
    }

    /** The last point and the slope changes determine the line c at the current block. */
    ghost predicate SupplyKnown(c: Line)
      reads `epoch, `pointHistory, `slopeChanges, `now
    {
      && k.Sane() && Tracks(k.week, c, LastPoint(), slopeChanges)
      && LastPoint().bias <= I128_MAX && LastPoint().block <= now
      && EndedFrom(c, LastPoint().block + k.Span())
    }

    /** Total voting power at the current block, before rounding errors into u128 are checked. */
    ghost function SupplyNow(c: Line): nat
      reads `epoch, `pointHistory, `now
    {
      SupplyPower(k.voteWeight, LastPoint().amount, c.bias(now))
    }

    /** The week loop that extrapolates the weight from a point on the line c to block t. */
    static method WeightAt(week: pos, point: Point, t: nat, changes: map<nat, int>, ghost c: Line)
      returns (r: Result<int>)
      requires Tracks(week, c, point, changes) && point.bias <= I128_MAX
      requires EndedFrom(c, point.block + 254 * week)
      ensures r == if t < point.block then Err(Overflow) else Ok(c.bias(t))
    {
      var last := point;
      var ti := last.block / week * week;
      WeekFloorIsDivision(week, last.block);
      WeekFloorBounds(week, last.block);
      ghost var t0 := ti;
      for i := 0 to 255
        invariant ti == WeekFloor(week, last.block) == t0 + i * week
        invariant if i == 0 then last == point else point.block <= last.block == ti < t
        invariant last.bias <= point.bias && Exact(c, last)
      {
        OneMoreWeek(week, t0, i);
        ti := ti + week;
        var dSlope := 0;
        if ti > t {
          ti := t;
        } else {
          dSlope := Get(changes, ti, 0);
        }
        if point.block <= t {
          ExtrapolateExact(week, c, point.block, changes, last, NextWeek(week, last.block), t);
        }
        var bias :- Fallen(last, ti);
        if ti == t {
          return Ok(bias);
        }
        last := Point(bias, last.slope + dSlope, ti, last.amount);
      }
      assert Ended(c, ti) && Ended(c, t);
      r := Ok(last.bias);
    }

    /** Total voting power at block t, extrapolated week by week from a point on the line c. */
    method SupplyAt(point: Point, t: nat, ghost c: Line) returns (r: Result<nat>)
      requires k.Sane() && Tracks(k.week, c, point, slopeChanges) && point.bias <= I128_MAX
      requires EndedFrom(c, point.block + k.Span())
      ensures t < point.block ==> r == Err(Overflow)
      ensures point.block <= t ==> r == U128(SupplyPower(k.voteWeight, point.amount, c.bias(t)))
    {
      var bias :- WeightAt(k.week, point, t, slopeChanges, c);
      r := CheckedPower(k.voteWeight, point.amount, bias);
    }

    // ---- Checkpoints -------------------------------------------------------------------

    /** Where a checkpoint starts from: the last point, or an empty one if there is none. */
    function StartPoint(): Point
      reads `epoch, `pointHistory, `now, `supply
    {
      if epoch > 0 then GlobalPoint(pointHistory, epoch) else Point(0, 0, now, supply)
    }

    /** The week loop of a checkpoint, on the storage it reads: from point `start` on the line c
        to block `now`, recording a point at every boundary passed. */
    static method WeekSteps(week: pos, start: Point, now: nat, supply: nat, changes: map<nat, int>, e0: nat,
                            h0: GlobalHistory, ghost c: Line)
      returns (last: Point, g: nat, history: GlobalHistory)
      requires Weekly(week, c, start.block) && OnLine(c, start) && start.block <= now
      requires forall t: nat :: t > start.block ==> ChangeRight(c, changes, t)
      requires Continues(h0, e0, h0, e0, start.block)
      ensures OnLine(c, last) && last.block <= now
      ensures last.block == now <==> now <= WeekFloor(week, start.block) + 255 * week
      ensures last.block == now ==>
        last.amount == supply && e0 < g && Continues(h0, e0, history, g - 1, now)
    {
      last, g, history := start, e0, h0;
      var ti := last.block / week * week;
      WeekFloorIsDivision(week, last.block);
      WeekFloorBounds(week, last.block);
      ghost var t0 := ti;
      for i := 0 to 255
        invariant ti == WeekFloor(week, last.block) == t0 + i * week
        invariant start.block <= last.block <= now && (i > 0 ==> last.block == ti < now)
        invariant OnLine(c, last)
        invariant g == e0 + i && Continues(h0, e0, history, g, last.block)
      {
        OneMoreWeek(week, t0, i);
        NextPointExact(week, c, start.block, changes, last, ti + week, now);
        last := NextPoint(changes, last, ti + week, now).value;
        ti := last.block;
        g := g + 1;
        if ti == now {
          last := last.(amount := supply);
          break;
        }
        ContinueWith(h0, e0, history, g - 1, last);
        history := history[g := last];
      }
    }

    /** Brings the last global point to the current block. The 255 steps arrive there exactly when
        it lies within 255 weeks of the last point's week. No step overflows and neither clamp fires. */
    method FillHistory(ghost c: Line) returns (r: Point)
      requires Summarised(k, c, epoch, pointHistory, slopeChanges, now)
      modifies `epoch, `pointHistory
      ensures OnLine(c, r) && r.block <= now
      ensures r.block == now <==> Reaches(k, old(epoch), old(pointHistory), now)
      ensures r.block == now ==> r.amount == supply && old(epoch) < epoch
      ensures r.block == now ==> Continues(old(pointHistory), old(epoch), pointHistory, epoch - 1, now)
    {
      StartReady(k, c, epoch, pointHistory, slopeChanges, now, StartPoint());
      r, epoch, pointHistory := WeekSteps(k.week, StartPoint(), now, supply, slopeChanges, epoch, pointHistory, c);
    }

    /** Moves a position's slope from its old end to its new one in the map of slope changes. */
    method MoveSlopeChange(oldLocked: LockedBalance, newLocked: LockedBalance, oldSlope: int, newSlope: int)
      returns (r: Result<()>)
      requires newLocked.end == 0 || oldLocked.end <= newLocked.end
      requires oldSlope == SlopeOfAt(k.maxBlock, oldLocked, now) && newSlope == SlopeOfAt(k.maxBlock, newLocked, now)
      requires oldSlope <= I128_MAX && forall t: nat :: t > now ==> ChangeHeld(slopeChanges, t)
      modifies `slopeChanges
      ensures r.Ok? <==> forall t: nat :: t > now ==> ChangeFits(k.maxBlock, old(slopeChanges), oldLocked, newLocked, t)
      ensures r.Ok? ==> forall t: nat :: t > now ==>
        ChangedBy(k.maxBlock, old(slopeChanges), slopeChanges, oldLocked, newLocked, t)
      ensures r.Err? ==> r.error == Overflow
    {
      MoveChecked(k.maxBlock, slopeChanges, oldLocked, newLocked, now);
      var oldChange := Get(slopeChanges, oldLocked.end, 0);
      var newChange := 0;
      if newLocked.end != 0 {
        if newLocked.end == oldLocked.end {
          newChange := oldChange;
        } else {
          newChange := Get(slopeChanges, newLocked.end, 0);
        }
      }
      if oldLocked.end > now {
        oldChange :- I128(oldChange + oldSlope);
        if newLocked.end == oldLocked.end {
          oldChange :- I128(oldChange - newSlope);
        }
        slopeChanges := slopeChanges[oldLocked.end := oldChange];
      }
      if newLocked.end > now && newLocked.end > oldLocked.end {
        newChange :- I128(newChange - newSlope);
        slopeChanges := slopeChanges[newLocked.end := newChange];
      }
      r := Ok(());
    }

    /** The global part of a checkpoint: one lock changes, and with it the line from c to c'.
        Afterwards the summary stands for c', at the current block. */
    method GlobalCheckpoint(oldLocked: LockedBalance, newLocked: LockedBalance, ghost c: Line, ghost c': Line)
      returns (r: Result<Point>)
      requires k.Sane() && Reaches(k, epoch, pointHistory, now)
      requires Summarised(k, c, epoch, pointHistory, slopeChanges, now)
      requires Replaced(k.maxBlock, c, c', oldLocked, newLocked) && Weekly(k.week, c', now)
      requires newLocked.end == 0 || oldLocked.end <= newLocked.end
      requires oldLocked.amount <= U128_MAX && newLocked.amount <= U128_MAX && PartOf(k.maxBlock, c, oldLocked, now)
      modifies `epoch, `pointHistory, `slopeChanges
      ensures r.Ok? <==> c.bias(now) + BiasOf(k.maxBlock, newLocked, now) <= I128_MAX
      ensures r.Ok? ==>
        r.value.slope == SlopeOfAt(k.maxBlock, newLocked, now)
        && r.value.bias == BiasOf(k.maxBlock, newLocked, now) <= I128_MAX
      ensures r.Ok? ==> Summarised(k, c', epoch, pointHistory, slopeChanges, now)
      ensures r.Ok? ==> GlobalPoint(pointHistory, epoch).block == now
      ensures r.Ok? ==> GlobalPoint(pointHistory, epoch).amount == supply
      ensures r.Ok? ==> old(epoch) < epoch && KeepsPoints(old(pointHistory), old(epoch), pointHistory)
      ensures r.Err? ==> r.error == Overflow
    {
      ghost var changes := slopeChanges;
      var oldSide :- CheckedSide(k.maxBlock, oldLocked, now);
      var newSide :- CheckedSide(k.maxBlock, newLocked, now);
      var last := FillHistory(c);
      ghost var before, h := last, pointHistory;
      CorrectionNonNeg(k.maxBlock, k.week, c, c', oldLocked, newLocked, last);
      SlopeBelowWeight(k.maxBlock, oldLocked, now);
      SlopeBelowWeight(k.maxBlock, newLocked, now);
      RoomForChanges(k.maxBlock, c, changes, GlobalPoint(old(pointHistory), old(epoch)).block,
                     oldLocked, newLocked, now);
      last :- Corrected(last, oldSide, newSide);
      pointHistory := pointHistory[epoch := last];
      assert slopeChanges == changes;
      var _ :- MoveSlopeChange(oldLocked, newLocked, oldSide.slope, newSide.slope);
      CheckpointDone(k, c, c', oldLocked, newLocked, old(pointHistory), old(epoch), changes, now, before,
                     h, epoch, last, slopeChanges);
      r := Ok(newSide);
    }

    /** Total voting power at a block, by default the current one. For a block before the last point
        there is none. */
    method TotalSupply(time: Option<nat>, ghost c: Line) returns (r: Result<nat>)
      requires SupplyKnown(c)
      ensures time.None? ==> r == U128(SupplyNow(c))
      ensures time.Some? && LastPoint().block <= time.value ==>
        r == U128(SupplyPower(k.voteWeight, LastPoint().amount, c.bias(time.value)))
      ensures time.Some? && time.value < LastPoint().block ==> r == Err(Overflow)
    {
      r := SupplyAt(LastPoint(), if time.Some? then time.value else now, c);
    }

    // ---- Voting power ------------------------------------------------------------------

    /** The balance an update credits: none without an account. */
    ghost function CreditedBalance(who: Option<Account>): nat
      reads `locked, `userPointEpoch, `userPointHistory, `userPositions, `now
    {
      if who.None? then 0 else
        CurrentTotal(k.voteWeight, locked, userPointEpoch, userPointHistory, Get(userPositions, who.value, []), now)
    }

    method BalanceOfPosition(p: PositionId) returns (r: Result<nat>)
      ensures r == if Readable(locked, userPointEpoch, userPointHistory, p, now)
                   then U128(CurrentPower(k.voteWeight, locked, userPointEpoch, userPointHistory, p, now))
                   else Err(Overflow)
    {
      var lock := Get(locked, p, NO_LOCK);
      if now >= lock.end {
        return Ok(0);
      }
      var e := Get(userPointEpoch, p, 0);
      if e == 0 {
        return Ok(0);
      }
      r := CheckedPointPower(k.voteWeight, UserPoint(userPointHistory, p, e), now);
    }

    method BalanceOfCurrentBlock(who: Account) returns (r: Result<nat>)
      ensures r == if AllReadable(Get(userPositions, who, []), locked, userPointEpoch, userPointHistory, now)
                   then U128(CreditedBalance(Some(who)))
                   else Err(Overflow)
    {
      var positions, balance := Get(userPositions, who, []), 0;
      for i := 0 to |positions|
        invariant balance ==
          CurrentTotal(k.voteWeight, locked, userPointEpoch, userPointHistory, positions[..i], now) <= U128_MAX
        invariant forall j :: 0 <= j < i ==> Readable(locked, userPointEpoch, userPointHistory, positions[j], now)
      {
        assert positions[..i + 1][..i] == positions[..i];
        CurrentTotalGrows(k.voteWeight, locked, userPointEpoch, userPointHistory, positions, i + 1, now);
        var power :- BalanceOfPosition(positions[i]);
        balance :- U128(balance + power);
      }
      assert positions[..|positions|] == positions;
      r := Ok(balance);
    }

    // ---- Rewards -----------------------------------------------------------------------

    /** Accrual up to the current block fits. */
    ghost predicate AccrualOk(c: Line)
      reads `epoch, `pointHistory, `now, `incentive
    {
      SupplyNow(c) <= U128_MAX && AccrualFits(k.multiplier, incentive, now, SupplyNow(c))
    }

    /** So does the credit of an account at the given reward per token. */
    ghost predicate CreditOk(who: Account, perToken: Amounts)
      reads `locked, `userPointEpoch, `userPointHistory, `userPositions, `now, `paid
    {
      Headroom.CreditOk(k.multiplier, locked, userPointEpoch, userPointHistory,
                        Get(userPositions, who, []), now, perToken, Get(paid, who, map[]), CreditedBalance(Some(who)))
    }

    /** Reward per token for every currency with a rate, brought up to the current block. */
    method CalculateRewardPerToken(ghost c: Line) returns (r: Result<IncentiveConfig>)
      requires SupplyKnown(c)
      ensures r == if AccrualOk(c) then Ok(Accrue(k.multiplier, incentive, now, SupplyNow(c))) else Err(Overflow)
    {
      var total :- TotalSupply(None, c);
      if total == 0 {
        return Ok(incentive);
      }
      r := AddIncrements(k.multiplier, incentive, now, total);
    }

    /** The loop over the currencies with a rate. */
    static method AddIncrements(mult: pos, conf: IncentiveConfig, now: nat, total: pos)
      returns (r: Result<IncentiveConfig>)
      ensures r.Ok? ==> r.value == Accrue(mult, conf, now, total)
      ensures r.Ok? <==> AccrualFits(mult, conf, now, total)
      ensures r.Err? ==> r.error == Overflow
    {
      var todo, perToken := conf.rewardRate.Keys, conf.rewardPerToken;
      while todo != {}
        invariant todo <= conf.rewardRate.Keys
        invariant perToken == AccrueOver(mult, conf, now, total, conf.rewardRate.Keys - todo)
        invariant forall c :: c in conf.rewardRate.Keys - todo ==> Increment(mult, conf, now, total, c) <= U128_MAX
        decreases todo
      {
        var currency :| currency in todo;
        var increment :- U128(Increment(mult, conf, now, total, currency));
        perToken := perToken[currency := SatAdd(Get(perToken, currency, 0), increment)];
        todo := todo - {currency};
      }
      assert conf.rewardRate.Keys - todo == conf.rewardRate.Keys;
      r := Ok(conf.(rewardPerToken := perToken));
    }

    method RewardPerToken(ghost c: Line) returns (r: Result<Amounts>)
      requires SupplyKnown(c)
      modifies `incentive
      ensures r.Ok? ==> incentive == Accrue(k.multiplier, old(incentive), now, SupplyNow(c))
      ensures r == if old(AccrualOk(c)) then Ok(incentive.rewardPerToken) else Err(Overflow)
      ensures r.Err? ==> incentive == old(incentive)
    {
      var conf :- CalculateRewardPerToken(c);
      incentive := conf;
      r := Ok(conf.rewardPerToken);
    }

    /** The stored rewards of an account together with what has accrued for it. The accrual is
        repeated first, which in the block of a settlement changes nothing. */
    method EarnedBy(who: Account, ghost c: Line) returns (r: Result<Amounts>)
      requires SupplyKnown(c)
      requires Accrue(k.multiplier, incentive, now, SupplyNow(c)) == incentive
      modifies `incentive
      ensures incentive == old(incentive)
      ensures r == if old(AccrualOk(c)) && CreditOk(who, incentive.rewardPerToken)
                   then Ok(Earned(k.multiplier, incentive.rewardPerToken, Get(rewards, who, map[]),
                                  Get(paid, who, map[]), CreditedBalance(Some(who))))
                   else Err(Overflow)
    {
      var perToken :- RewardPerToken(c);
      var balance :- BalanceOfCurrentBlock(who);
      var stored, paidTo := Get(rewards, who, map[]), Get(paid, who, map[]);
      r := AddEarned(k.multiplier, perToken, stored, paidTo, balance);
    }

    /** The loop over the currencies of one account's earnings. */
    static method AddEarned(mult: pos, perToken: Amounts, stored: Amounts, paidTo: Amounts, balance: nat)
      returns (r: Result<Amounts>)
      ensures r.Ok? ==> r.value == Earned(mult, perToken, stored, paidTo, balance)
      ensures r.Ok? <==> PendingFits(mult, perToken, paidTo, balance)
      ensures r.Err? ==> r.error == Overflow
    {
      var todo, earned := perToken.Keys, stored;
      while todo != {}
        invariant todo <= perToken.Keys
        invariant earned == EarnedOver(mult, perToken, stored, paidTo, balance, perToken.Keys - todo)
        invariant forall c :: c in perToken.Keys - todo ==> Pending(mult, perToken, paidTo, balance, c) <= U128_MAX
        decreases todo
      {
        var currency :| currency in todo;
        var increment :- U128(Pending(mult, perToken, paidTo, balance, currency));
        EarnedStep(mult, perToken, stored, paidTo, balance, perToken.Keys - todo, currency);
        earned := earned[currency := SatAdd(Get(earned, currency, 0), increment)];
        assert perToken.Keys - (todo - {currency}) == (perToken.Keys - todo) + {currency};
        todo := todo - {currency};
      }
      assert perToken.Keys - todo == perToken.Keys;
      r := Ok(earned);
    }

    /** Brings the pool's figures up to date. */
    method SettlePool(ghost c: Line) returns (r: Result<Amounts>)
      requires SupplyKnown(c)
      modifies `incentive
      ensures r.Ok? ==> incentive == Settle(k.multiplier, old(incentive), now, SupplyNow(c))
      ensures r == if old(AccrualOk(c)) then Ok(incentive.rewardPerToken) else Err(Overflow)
      ensures r.Err? ==> incentive == old(incentive)
    {
      var perToken :- RewardPerToken(c);
      incentive := incentive.(rewardPerToken := perToken, lastUpdateTime := LastTimeApplicable(incentive, now));
      r := Ok(perToken);
    }

    /** Credits an account in a pool that has just been settled. */
    method CreditAccount(who: Account, ghost c: Line, ghost balance: nat) returns (r: Result<()>)
      requires SupplyKnown(c) && balance == CreditedBalance(Some(who))
      requires Accrue(k.multiplier, incentive, now, SupplyNow(c)) == incentive
      modifies `incentive, `rewards, `paid
      ensures r.Ok? ==> AccountsState() == Credit(k.multiplier, old(AccountsState()), who, balance)
      ensures r == if old(AccrualOk(c) && CreditOk(who, incentive.rewardPerToken)) then Ok(()) else Err(Overflow)
    {
      var perToken := incentive.rewardPerToken;
      var earned :- EarnedBy(who, c);
      if earned != map[] {
        rewards := rewards[who := earned];
      }
      paid := paid[who := perToken];
      r := Ok(());
    }

    /** Both fit. */
    ghost predicate UpdateOk(who: Option<Account>, c: Line)
      reads `epoch, `pointHistory, `incentive, `locked, `userPointEpoch, `userPointHistory, `userPositions, `now, `paid
    {
      AccrualOk(c) && (who.Some? ==>
        CreditOk(who.value, Accrue(k.multiplier, incentive, now, SupplyNow(c)).rewardPerToken))
    }

    /** Brings the pool's figures up to date and, if an account is given, its rewards. */
    method UpdateReward(who: Option<Account>, ghost c: Line, ghost total: nat, ghost balance: nat)
      returns (r: Result<()>)
      requires SupplyKnown(c) && total == SupplyNow(c) && balance == CreditedBalance(who)
      modifies `incentive, `rewards, `paid
      ensures r.Ok? ==> AccountsState() == Update(k.multiplier, old(AccountsState()), who, now, total, balance)
      ensures who.None? && r.Err? ==> AccountsState() == old(AccountsState())
      ensures r == if old(UpdateOk(who, c)) then Ok(()) else Err(Overflow)
    {
      var _ :- SettlePool(c);
      if who.Some? {
        SettleThenAccrue(k.multiplier, old(incentive), now, total);
        var _ :- CreditAccount(who.value, c, balance);
      }
      r := Ok(());
    }

    // ---- Checkpoints of a call ---------------------------------------------------------

    /** The storage as it is in the middle of a call that found storage s: the lock of position p
        has been rewritten to l, its checkpoint is still to come. */
    ghost predicate MidCall(s: Store, p: PositionId, l: LockedBalance)
      reads this
    {
      && now == s.now && recorded == s.recorded && locked == s.book.locked[p := l]
      && userPositions == s.book.userPositions && AccountsState() == s.accounts
      && epoch == s.epoch && pointHistory == s.pointHistory && slopeChanges == s.slopeChanges
      && userPointEpoch == s.userPointEpoch && userPointHistory == s.userPointHistory
    }

    /** The reward update of a call. */
    method SettleOwner(who: Account, p: PositionId, ghost l: LockedBalance, ghost s: Store) returns (r: Result<()>)
      requires k.Sane() && Inv(k, s) && Writable(k, s, p, l) && s.book.owner[p] == who && MidCall(s, p, l)
      modifies `incentive, `rewards, `paid
      ensures r.Ok? ==> Settled(k, s, p, l, AccountsState())
      ensures r == if Fits(k, s) then Ok(()) else Err(Overflow)
    {
      ghost var c := LineOf(k.maxBlock, s.book.locked);
      CheckpointReady(k, s, p, l);
      FitsMeaning(k, s);
      if Fits(k, s) {
        MidCallCredit(k, s, p, l);
      }
      r := UpdateReward(Some(who), c, TotalNow(k, s), MidCallBalance(k, s, p, l));
    }

    /** The global part of a call's checkpoint. */
    method MoveCurve(p: PositionId, oldLocked: LockedBalance, newLocked: LockedBalance, ghost s: Store)
      returns (r: Result<Point>)
      requires k.Sane() && Inv(k, s) && Writable(k, s, p, newLocked) && CanCheckpoint()
      requires now == s.now && locked == s.book.locked[p := newLocked] && oldLocked == s.book.locked[p]
      requires epoch == s.epoch && pointHistory == s.pointHistory && slopeChanges == s.slopeChanges
      requires newLocked.amount <= U128_MAX
      modifies `epoch, `pointHistory, `slopeChanges
      ensures r.Ok? ==> SummaryNow(k, locked, epoch, pointHistory, slopeChanges, now, supply)
      ensures r.Ok? ==>
        r.value.slope == SlopeOfAt(k.maxBlock, newLocked, now)
        && r.value.bias == BiasOf(k.maxBlock, newLocked, now) <= I128_MAX
      ensures r.Ok? <==> WeightFits(k, s, newLocked)
      ensures r.Err? ==> r.error == Overflow
    {
      CheckpointReady(k, s, p, newLocked);
      OldLockPart(k, s, p);
      r := GlobalCheckpoint(oldLocked, newLocked, LineOf(k.maxBlock, s.book.locked), LineOf(k.maxBlock, locked));
    }

    /** Adds a point to a position's history. */
    method RecordPoint(p: PositionId, side: Point, newLocked: LockedBalance)
      requires side.slope == SlopeOfAt(k.maxBlock, newLocked, now) && side.bias == BiasOf(k.maxBlock, newLocked, now)
      modifies `userPointEpoch, `userPointHistory
      ensures userPointEpoch == WithEpoch(old(userPointEpoch), p)
      ensures userPointHistory == WithPoint(k.maxBlock, old(userPointEpoch), old(userPointHistory), p, newLocked, now)
    {
      var e := Get(userPointEpoch, p, 0) + 1;
      userPointEpoch := userPointEpoch[p := e];
      userPointHistory := userPointHistory[(p, e) := side.(block := now, amount := newLocked.amount)];
    }

    /** The last step of a checkpoint: with rewards settled and the curve moved, the point is added. */
    method FinishCheckpoint(p: PositionId, side: Point, newLocked: LockedBalance, ghost s: Store)
      requires Writable(k, s, p, newLocked) && now == s.now && recorded == s.recorded
      requires Settled(k, s, p, newLocked, AccountsState())
      requires SummaryNow(k, s.book.locked[p := newLocked], epoch, pointHistory, slopeChanges, now, supply)
      requires userPointEpoch == s.userPointEpoch && userPointHistory == s.userPointHistory
      requires side.slope == SlopeOfAt(k.maxBlock, newLocked, now)
      requires side.bias == BiasOf(k.maxBlock, newLocked, now) <= I128_MAX
      modifies `userPointEpoch, `userPointHistory
      ensures Checkpointed(k, s, Snapshot(), p, newLocked) && userPointEpoch == WithEpoch(s.userPointEpoch, p)
    {
      RecordPoint(p, side, newLocked);
      CheckpointAssembled(k, s, Snapshot(), p, newLocked);
    }

    /** Settles the owner's rewards, brings the global curve to the current block with the changed
        lock, and adds a point to the position's history. */
    method Checkpoint(who: Account, p: PositionId, oldLocked: LockedBalance, newLocked: LockedBalance, ghost s: Store)
      returns (r: Result<()>)
      requires k.Sane() && Inv(k, s) && Writable(k, s, p, newLocked) && s.book.owner[p] == who
      requires MidCall(s, p, newLocked) && CanCheckpoint() && oldLocked == s.book.locked[p]
      requires newLocked.amount <= U128_MAX
      modifies `incentive, `rewards, `paid, `epoch, `pointHistory, `slopeChanges, `userPointEpoch, `userPointHistory
      ensures r.Ok? ==> Checkpointed(k, s, Snapshot(), p, newLocked)
      ensures r.Ok? ==> userPointEpoch == WithEpoch(s.userPointEpoch, p)
      ensures r == if Fits(k, s) && WeightFits(k, s, newLocked) then Ok(()) else Err(Overflow)
    {
      var _ :- SettleOwner(who, p, newLocked, s);
      var side :- MoveCurve(p, oldLocked, newLocked, s);
      FinishCheckpoint(p, side, newLocked, s);
      r := Ok(());
    }

    // ---- Transactions ------------------------------------------------------------------

    method RestoreLocks(b: LockBook)
      modifies `supply, `locked, `userLocked
      ensures Snapshot() == old(Snapshot()).(
        book := old(Book()).(supply := b.supply, locked := b.locked, userLocked := b.userLocked))
    {
      supply, locked, userLocked := b.supply, b.locked, b.userLocked;
    }

    method RestoreOwners(b: LockBook)
      modifies `position, `userPositions, `positionOwner
      ensures Snapshot() == old(Snapshot()).(
        book := old(Book()).(next := b.next, userPositions := b.userPositions, owner := b.owner))
    {
      position, userPositions, positionOwner := b.next, b.userPositions, b.owner;
    }

    method RestoreCurve(s: Store)
      modifies `epoch, `pointHistory, `slopeChanges
      ensures Snapshot() == old(Snapshot()).(
        epoch := s.epoch, pointHistory := s.pointHistory, slopeChanges := s.slopeChanges)
    {
      epoch, pointHistory, slopeChanges := s.epoch, s.pointHistory, s.slopeChanges;
    }

    method RestorePoints(s: Store)
      modifies `userPointEpoch, `userPointHistory, `recorded
      ensures Snapshot() == old(Snapshot()).(
        userPointEpoch := s.userPointEpoch, userPointHistory := s.userPointHistory, recorded := s.recorded)
    {
      userPointEpoch, userPointHistory, recorded := s.userPointEpoch, s.userPointHistory, s.recorded;
    }

    method RestoreRewards(a: Accounts)
      modifies `incentive, `rewards, `paid
      ensures Snapshot() == old(Snapshot()).(accounts := a)
    {
      incentive, rewards, paid := a.conf, a.rewards, a.paid;
    }

    method RestoreIndex(s: Store)
      modifies `expiringPositions, `nextExpiringBlock
      ensures Snapshot() == old(Snapshot()).(expiring := s.expiring, nextExpiring := s.nextExpiring)
    {
      expiringPositions, nextExpiringBlock := s.expiring, s.nextExpiring;
    }

    method RestoreRest(s: Store)
      modifies `config, `now, `free
      ensures Snapshot() == old(Snapshot()).(config := s.config, now := s.now, free := s.free)
    {
      config, now, free := s.config, s.now, s.free;
    }

    /** Puts storage back to what it was when a transaction began. */
    method Restore(s: Store)
      modifies this
      ensures Snapshot() == s
    {
      RestoreLocks(s.book);
      RestoreOwners(s.book);
      RestoreCurve(s);
      RestorePoints(s);
      RestoreRewards(s.accounts);
      RestoreIndex(s);
      RestoreRest(s);
    }

    // ---- Balances ----------------------------------------------------------------------

    /** What of currency c an account cannot spend. */
    function Frozen(c: Currency, who: Account): nat
      reads `userLocked
    {
      if c == k.token then Get(userLocked, who, 0) else 0
    }

    predicate CanPay(c: Currency, from: Account, to: Account, amount: nat)
      reads `userLocked, `free
    {
      amount == 0 || from == to || Frozen(c, from) + amount <= Held(free, c, from)
    }

    /** A transfer that respects locks. */
    method Transfer(c: Currency, from: Account, to: Account, amount: nat) returns (r: Result<()>)
      modifies `free
      ensures r == if !old(CanPay(c, from, to, amount)) then Err(NotEnoughBalance)
                   else if !CanReceive(old(free), c, from, to, amount) then Err(Overflow) else Ok(())
      ensures r.Err? ==> free == old(free)
      ensures r.Ok? ==>
        (amount <= Held(old(free), c, from) || from == to) && free == Sent(old(free), c, from, to, amount)
    {
      if amount == 0 || from == to {
        return Ok(());
      }
      if Held(free, c, from) < amount || Held(free, c, from) - amount < Frozen(c, from) {
        return Err(NotEnoughBalance);
      }
      var received :- U128(Held(free, c, to) + amount);
      free := free[(c, from) := Held(free, c, from) - amount][(c, to) := received];
      r := Ok(());
    }

    /** The lock on an account's tokens. */
    method SetVeLocked(who: Account, amount: nat)
      modifies `userLocked
      ensures userLocked == old(userLocked)[who := amount]
    {
      userLocked := userLocked[who := amount];
    }

    // ---- Positions ---------------------------------------------------------------------

    method CreatePosition(who: Account) returns (r: Result<PositionId>)
      modifies `position, `userPositions, `positionOwner, `locked
      ensures r.Err? <==> k.maxPositions <= |PositionsOf(old(Book()), who)|
      ensures r.Err? ==> r.error == ExceedsMaxPositions && Book() == old(Book())
      ensures r.Ok? ==> r.value == old(position) && Book() == AddPosition(old(Book()), who)
    {
      var id, mine := position, Get(userPositions, who, []);
      if |mine| >= k.maxPositions {
        return Err(ExceedsMaxPositions);
      }
      userPositions := userPositions[who := mine + [id]];
      position := id + 1;
      positionOwner := positionOwner[id := who];
      locked := locked[id := NO_LOCK];
      r := Ok(id);
    }

    /** Gives up an emptied position. */
    method RemovePosition(who: Account, p: PositionId) returns (r: Result<()>)
      requires p in positionOwner && positionOwner[p] == who && Get(locked, p, NO_LOCK) == NO_LOCK && p in locked
      modifies `userPositions, `positionOwner, `locked, `userPointEpoch
      ensures r == if p in PositionsOf(old(Book()), who) then Ok(()) else Err(LockNotExist)
      ensures r.Ok? ==> Book() == Disown(old(Book()), p) && userPointEpoch == old(userPointEpoch) - {p}
    {
      var mine := Get(userPositions, who, []);
      if p !in mine {
        return Err(LockNotExist);
      }
      userPositions := userPositions[who := Filter(mine, p)];
      positionOwner := positionOwner - {p};
      locked := locked[p := NO_LOCK];
      assert locked == old(locked);
      userPointEpoch := userPointEpoch - {p};
      r := Ok(());
    }

    method RecordExpiring(p: PositionId, end: nat) returns (r: Result<()>)
      modifies `expiringPositions, `nextExpiringBlock
      ensures r.Ok? <==>
        p in Listed(old(expiringPositions), end) || |Listed(old(expiringPositions), end)| < BLOCK_CAPACITY
      ensures r.Err? ==> r.error == ExceedsMaxPositions
      ensures r.Ok? ==> expiringPositions == Record(old(expiringPositions), p, end)
      ensures r.Ok? ==> nextExpiringBlock == CursorAfter(old(nextExpiringBlock), end)
    {
      var list := Listed(expiringPositions, end);
      if p !in list {
        if |list| >= BLOCK_CAPACITY {
          return Err(ExceedsMaxPositions);
        }
        list := list + [p];
      }
      expiringPositions := expiringPositions[end := list];
      if nextExpiringBlock == 0 || end < nextExpiringBlock {
        nextExpiringBlock := end;
      }
      r := Ok(());
    }

    method RemoveExpiring(p: PositionId, end: nat)
      modifies `expiringPositions
      ensures expiringPositions == Unrecord(old(expiringPositions), p, end)
    {
      var list := Listed(expiringPositions, end);
      if list != [] {
        expiringPositions := expiringPositions[end := Filter(list, p)];
      }
    }

    // ---- Deposits ----------------------------------------------------------------------

    /** The ledger part of a deposit. */
    method AddToLock(who: Account, p: PositionId, value: nat, unlockTime: nat, lock: LockedBalance, ghost b: LockBook)
      returns (r: Result<LockedBalance>)
      requires b == Book() && p in b.owner && b.owner[p] == who && lock == Get(b.locked, p, NO_LOCK)
      modifies `supply, `locked, `userLocked
      ensures var e := DepositError(b, Held(free, k.token, who), p, value);
        r == if e.Some? then Err(e.value) else Ok(LockedBalance(lock.amount + value, NewEnd(lock, unlockTime)))
      ensures r.Ok? ==> Book() == Deposit(b, p, value, r.value.end)
    {
      var newSupply :- U128(supply + value);
      supply := newSupply;
      var amount :- U128(lock.amount + value);
      var l := LockedBalance(amount, NewEnd(lock, unlockTime));
      locked := locked[p := l];
      if value != 0 {
        var total :- U128(Get(userLocked, who, 0) + value);
        if total > Held(free, k.token, who) {
          return Err(NotEnoughBalance);
        }
        SetVeLocked(who, total);
      }
      r := Ok(l);
    }

    /** The checkpoint of a deposit, once lock l has been written. */
    method CheckpointDeposit(who: Account, p: PositionId, ghost value: nat, lock: LockedBalance,
            l: LockedBalance, ghost s: Store)
      returns (r: Result<()>)
      requires k.Sane() && Inv(k, s) && Writable(k, s, p, l) && s.book.owner[p] == who && who != k.pool
      requires MidCall(s, p, l) && CanCheckpoint() && lock == s.book.locked[p]
      requires l.amount == lock.amount + value && 0 < l.end
      requires Book() == Deposit(s.book, p, value, l.end) && free == s.free && config == s.config
      requires DepositError(s.book, Held(s.free, k.token, who), p, value).None?
      modifies `incentive, `rewards, `paid, `epoch, `pointHistory, `slopeChanges, `userPointEpoch, `userPointHistory
      ensures r.Ok? ==> Deposited(k, s, Snapshot(), p, value, l.end) && Inv(k, Snapshot())
      ensures r == if DepositFits(k, s, l) then Ok(()) else Err(Overflow)
    {
      var _ :- Checkpoint(who, p, lock, l, s);
      DepositMade(k, s, Snapshot(), p, value, l);
      r := Ok(());
    }

    /** Adds to a lock, moves its end, or both, with a checkpoint. */
    method DepositForInner(who: Account, p: PositionId, value: nat, unlockTime: nat, lock: LockedBalance,
            ghost s: Store)
      returns (r: Result<()>)
      requires s == Snapshot() && k.Sane() && Inv(k, s) && CanCheckpoint() && who != k.pool
      requires p in s.book.owner && s.book.owner[p] == who && lock == Get(s.book.locked, p, NO_LOCK)
      requires NewEnd(lock, unlockTime) != 0
      requires Writable(k, s, p, LockedBalance(lock.amount + value, NewEnd(lock, unlockTime)))
      modifies `supply, `locked, `userLocked, `incentive, `rewards, `paid, `epoch, `pointHistory, `slopeChanges
      modifies `userPointEpoch, `userPointHistory
      ensures r.Ok? ==> Deposited(k, s, Snapshot(), p, value, NewEnd(lock, unlockTime)) && Inv(k, Snapshot())
      ensures var l := LockedBalance(lock.amount + value, NewEnd(lock, unlockTime));
        r == Answer(DepositError(s.book, Held(free, k.token, who), p, value), DepositFits(k, s, l), true)
    {
      var l :- AddToLock(who, p, value, unlockTime, lock, s.book);
      r := CheckpointDeposit(who, p, value, lock, l, s);
    }

    // ---- Withdrawals -------------------------------------------------------------------

    /** Takes a lock's amount off the totals. Neither subtraction can underflow. */
    method ReleaseLock(who: Account, p: PositionId, lock: LockedBalance, ghost b: LockBook) returns (r: Result<()>)
      requires b == Book() && p in b.owner && b.owner[p] == who && p in b.locked && lock == b.locked[p]
      requires Sound(b, k.maxPositions)
      modifies `supply, `locked, `userLocked
      ensures r == Ok(()) && Book() == Empty(b, p)
    {
      NoUnderflow(b, p);
      locked := locked[p := NO_LOCK];
      if supply < lock.amount || Get(userLocked, who, 0) < lock.amount {
        return Err(Underflow);
      }
      supply := supply - lock.amount;
      SetVeLocked(who, Get(userLocked, who, 0) - lock.amount);
      r := Ok(());
    }

    /** The fee of an early redemption goes to the buy-back account. Paying it never runs into
        what its payer still has locked. */
    method PayFee(who: Account, p: PositionId, value: nat, fast: Option<nat>, ghost s: Store) returns (r: Result<()>)
      requires Inv(k, s) && p in s.book.owner && s.book.owner[p] == who
      requires p in s.book.locked && s.book.locked[p].amount == value
      requires Book() == Empty(s.book, p) && free == s.free && (fast.Some? ==> fast.value <= ONE)
      modifies `free
      ensures r.Ok? ==> (Fee(fast, value) <= Held(s.free, k.token, who) || who == k.buyBack)
      ensures r.Ok? ==> free == Sent(s.free, k.token, who, k.buyBack, Fee(fast, value))
      ensures r.Ok? && fast.Some? && who != k.buyBack ==>
        var x := Held(s.free, k.token, who) - Held(free, k.token, who);
        ONE * x <= fast.value * value < ONE * x + ONE
        && Held(free, k.token, k.buyBack) == Held(s.free, k.token, k.buyBack) + x
      ensures r == if CanReceive(s.free, k.token, who, k.buyBack, Fee(fast, value)) then Ok(()) else Err(Overflow)
    {
      FeeBound(fast, value);
      FeeCovered(k, s, p, Fee(fast, value));
      if fast.Some? && fast.value != 0 {
        var fee :- U128(MulDiv(fast.value, value, ONE));
        r := Transfer(k.token, who, k.buyBack, fee);
      } else {
        r := Ok(());
      }
    }

    /** Removal of a position, as a change of the whole storage. */
    method GiveUp(who: Account, p: PositionId, ghost s: Store) returns (r: Result<()>)
      requires s == Snapshot() && p in s.book.owner && s.book.owner[p] == who && p in PositionsOf(s.book, who)
      requires p in s.book.locked && s.book.locked[p] == NO_LOCK
      modifies `userPositions, `positionOwner, `locked, `userPointEpoch
      ensures r == Ok(())
      ensures Snapshot() == s.(book := Disown(s.book, p), userPointEpoch := s.userPointEpoch - {p})
    {
      r := RemovePosition(who, p);
    }

    /** The checkpoint of a withdrawal. */
    method CheckpointRelease(who: Account, p: PositionId, lock: LockedBalance, ghost fee: nat, ghost s: Store)
      returns (r: Result<()>)
      requires k.Sane() && Inv(k, s) && CanCheckpoint() && Writable(k, s, p, NO_LOCK) && s.book.owner[p] == who
      requires lock == s.book.locked[p] && MidCall(s, p, NO_LOCK) && Book() == Empty(s.book, p) && config == s.config
      requires (fee <= Held(s.free, k.token, who) || who == k.buyBack)
      requires free == Sent(s.free, k.token, who, k.buyBack, fee)
      modifies `incentive, `rewards, `paid, `epoch, `pointHistory, `slopeChanges, `userPointEpoch, `userPointHistory
      ensures r.Ok? ==> Released(k, s, Snapshot(), p, fee)
      ensures r == if Fits(k, s) then Ok(()) else Err(Overflow)
    {
      EmptyWeightFits(k, s);
      r := Checkpoint(who, p, lock, NO_LOCK, s);
      ghost var s1 := Snapshot();
      assert r.Ok? ==> s1.book == Empty(s.book, p) && s1.config == s.config;
      assert r.Ok? ==> s1.now == s.now && s1.recorded == s.recorded;
    }

    /** The removal of the position. */
    method FinishWithdrawal(who: Account, p: PositionId, ghost fee: nat, gaugeOk: bool, ghost s: Store, ghost s1: Store)
      returns (r: Result<()>)
      requires s1 == Snapshot() && Inv(k, s) && Released(k, s, s1, p, fee) && s.book.owner[p] == who
      modifies `userPositions, `positionOwner, `locked, `userPointEpoch
      ensures r.Ok? ==> Withdrawn(k, s, Snapshot(), p, fee)
      ensures r == if gaugeOk then Ok(()) else Err(GaugeRefused)
    {
      if !gaugeOk {
        return Err(GaugeRefused);
      }
      OnOwnList(k, s, p);
      r := GiveUp(who, p, s1);
      WithdrawalDone(k, s, s1, Snapshot(), p, fee);
    }

    /** The ledger part of a withdrawal. */
    method ReleaseAndPay(who: Account, p: PositionId, lock: LockedBalance, fast: Option<nat>, ghost s: Store)
      returns (r: Result<()>)
      requires s == Snapshot() && Inv(k, s) && (fast.Some? ==> fast.value <= ONE)
      requires p in s.book.owner && s.book.owner[p] == who && p in s.book.locked && lock == s.book.locked[p]
      modifies `free, `supply, `userLocked, `locked
      ensures r.Ok? ==>
        Book() == Empty(s.book, p) && (Fee(fast, lock.amount) <= Held(s.free, k.token, who) || who == k.buyBack)
      ensures r.Ok? ==> free == Sent(s.free, k.token, who, k.buyBack, Fee(fast, lock.amount))
      ensures r == if CanReceive(s.free, k.token, who, k.buyBack, Fee(fast, lock.amount)) then Ok(()) else Err(Overflow)
    {
      assert PartOk(k, s, Ledger);
      var _ :- ReleaseLock(who, p, lock, s.book);
      r := PayFee(who, p, lock.amount, fast, s);
    }

    method WithdrawBody(who: Account, p: PositionId, lock: LockedBalance, fast: Option<nat>, gaugeOk: bool,
            ghost s: Store)
      returns (r: Result<()>)
      requires s == Snapshot() && k.Sane() && Inv(k, s) && CanCheckpoint()
      requires p in s.book.owner && s.book.owner[p] == who && p in s.book.locked && lock == s.book.locked[p]
      requires fast.Some? ==> fast.value <= ONE
      modifies `free, `supply, `userLocked, `userPositions, `positionOwner, `locked, `incentive, `rewards, `paid
      modifies `epoch, `pointHistory, `slopeChanges, `userPointEpoch, `userPointHistory
      ensures r.Ok? ==> Withdrawn(k, s, Snapshot(), p, Fee(fast, lock.amount))
      ensures r == Answer(None, ReleaseFits(k, s, who, Fee(fast, lock.amount)), gaugeOk)
    {
      var _ :- ReleaseAndPay(who, p, lock, fast, s);
      var _ :- CheckpointRelease(who, p, lock, Fee(fast, lock.amount), s);
      r := FinishWithdrawal(who, p, Fee(fast, lock.amount), gaugeOk, s, Snapshot());
    }

    /** Pays a position out and gives it up, or does nothing. */
    method WithdrawNoEnsure(who: Account, p: PositionId, lock: LockedBalance, fast: Option<nat>, gaugeOk: bool)
      returns (r: Result<()>)
      requires Core() && CanCheckpoint()
      requires p in positionOwner && positionOwner[p] == who && lock == Get(locked, p, NO_LOCK)
      requires fast.Some? ==> fast.value <= ONE && who != k.pool
      modifies this
      ensures r.Ok? ==> Core() && CanCheckpoint()
      ensures r.Ok? ==> Withdrawn(k, old(Snapshot()), Snapshot(), p, Fee(fast, lock.amount))
      ensures r.Ok? ==> expiringPositions == old(expiringPositions) && nextExpiringBlock == old(nextExpiringBlock)
      ensures r.Err? ==> Snapshot() == old(Snapshot())
      ensures r == Answer(None, ReleaseFits(k, old(Snapshot()), who, Fee(fast, lock.amount)), gaugeOk)
    {
      var s := Snapshot();
      HasLock(k, s, p);
      r := WithdrawBody(who, p, lock, fast, gaugeOk, s);
      if r.Err? {
        Restore(s);
      } else {
        FeeBound(fast, lock.amount);
        WithdrawnInv(k, s, Snapshot(), p, Fee(fast, lock.amount));
        StillReaches(k, s, Snapshot(), p, NO_LOCK);
      }
    }

    // ---- Calls -------------------------------------------------------------------------

    ghost predicate Guarded()
      reads `expiringPositions, `nextExpiringBlock
    {
      CursorSound(expiringPositions, nextExpiringBlock)
    }

    /** Pays out a position whose time has come. */
    method Withdraw(who: Account, p: PositionId, gaugeOk: bool) returns (r: Result<()>)
      requires Valid() && CanCheckpoint()
      modifies this
      ensures r == Answer(WithdrawError(old(Snapshot()), who, p), Fits(k, old(Snapshot())), gaugeOk)
      ensures r.Err? ==> Snapshot() == old(Snapshot())
      ensures r.Ok? ==> Valid() && CanCheckpoint() && Withdrawn(k, old(Snapshot()), Snapshot(), p, 0)
      ensures r.Ok? && old(Guarded()) ==> Guarded()
      ensures Onward(old(now), old(nextExpiringBlock), now, nextExpiringBlock)
    {
      var s := Snapshot();
      if p !in Get(userPositions, who, []) {
        return Err(LockNotExist);
      }
      OwnsListed(k, s, who, p);
      var lock := Get(locked, p, NO_LOCK);
      if now < lock.end {
        return Err(Expired);
      }
      r := Leave(who, p, lock, None, gaugeOk, s);
    }

    /** Takes a position off the index and pays it out, or does nothing. */
    method Leave(who: Account, p: PositionId, lock: LockedBalance, fast: Option<nat>, gaugeOk: bool, s: Store)
      returns (r: Result<()>)
      requires s == Snapshot() && Valid() && CanCheckpoint()
      requires p in s.book.owner && s.book.owner[p] == who && p in s.book.locked && lock == s.book.locked[p]
      requires fast.Some? ==> fast.value <= ONE && who != k.pool
      modifies this
      ensures r.Err? ==> Snapshot() == s
      ensures r == Answer(None, ReleaseFits(k, s, who, Fee(fast, lock.amount)), gaugeOk)
      ensures r.Ok? ==> Valid() && CanCheckpoint() && Withdrawn(k, s, Snapshot(), p, Fee(fast, lock.amount))
      ensures r.Ok? ==> CursorSound(s.expiring, s.nextExpiring) ==> Guarded()
      ensures Onward(old(now), old(nextExpiringBlock), now, nextExpiringBlock)
    {
      RemoveExpiring(p, lock.end);
      ghost var s1 := Snapshot();
      SameButIndex(k, s, s1);
      IndexFits(k, s, s1);
      r := WithdrawNoEnsure(who, p, lock, fast, gaugeOk);
      if r.Err? {
        Restore(s);
      } else {
        WithdrawnAnyIndex(k, s, s1, Snapshot(), p, Fee(fast, lock.amount));
        WithdrawnIndex(k, s, Snapshot(), p, Fee(fast, lock.amount));
        if CursorSound(s.expiring, s.nextExpiring) {
          UnrecordCursor(s.expiring, p, lock.end, s.nextExpiring);
        }
      }
    }

    /** Pays out a running position at once, for a fee that grows with the time it has left. */
    method RedeemUnlock(who: Account, p: PositionId, gaugeOk: bool) returns (r: Result<()>)
      requires Valid() && CanCheckpoint() && who != k.pool
      modifies this
      ensures r == Answer(RedeemError(k, old(Snapshot()), who, p), RedeemFits(k, old(Snapshot()), who, p), gaugeOk)
      ensures r.Err? ==> Snapshot() == old(Snapshot())
      ensures r.Ok? ==> Valid() && CanCheckpoint() && Redeemed(k, old(Snapshot()), Snapshot(), p)
      ensures r.Ok? && old(Guarded()) ==> Guarded()
      ensures Onward(old(now), old(nextExpiringBlock), now, nextExpiringBlock)
    {
      var s := Snapshot();
      if p !in Get(userPositions, who, []) {
        return Err(LockNotExist);
      }
      OwnsListed(k, s, who, p);
      var lock := Get(locked, p, NO_LOCK);
      if lock.end <= now {
        return Err(Expired);
      }
      var fast :- RedeemCommission(k.oneYear, k.fiveYears, lock.end - now);
      r := Leave(who, p, lock, Some(fast), gaugeOk, s);
    }

    /** Takes the next position for an account, as a change of the whole storage. */
    method OpenPosition(who: Account, s: Store) returns (r: Result<PositionId>)
      requires s == Snapshot() && Core()
      modifies `position, `userPositions, `positionOwner, `locked
      ensures r.Err? <==> k.maxPositions <= |PositionsOf(s.book, who)|
      ensures r.Err? ==> r.error == ExceedsMaxPositions && Snapshot() == s
      ensures r.Ok? ==> r.value == s.book.next && Snapshot() == s.(book := AddPosition(s.book, who)) && Core()
      ensures r.Ok? ==> s.book.next !in s.book.owner && s.book.next !in s.userPointEpoch
    {
      r := CreatePosition(who);
      assert Snapshot() == s.(book := Book());
      if r.Ok? {
        CreateInv(k, s, s.(book := AddPosition(s.book, who)), who);
      }
    }

    /** The end of a lock for `unlockTime` more blocks from block `from`, rounded up to a week. */
    method RealUnlockTime(from: nat, unlockTime: nat, s: Store) returns (r: Result<nat>)
      requires config == s.config && now == s.now
      ensures var end := NextWeek(k.week, unlockTime + from);
        r == if EndRefused(k, s, end) then Err(ArgumentsError) else Ok(end)
    {
      var end := ((unlockTime + from) / k.week + 1) * k.week;
      var limit := ((k.maxBlock + now) / k.week + 1) * k.week;
      WeekFloorIsDivision(k.week, unlockTime + from);
      WeekFloorIsDivision(k.week, k.maxBlock + now);
      if end < config.minBlock + now || limit < end {
        return Err(ArgumentsError);
      }
      r := Ok(end);
    }

    /** Everything a new lock needs before its deposit: a position, and a place in the index. */
    method AdmitLock(who: Account, value: nat, unlockTime: nat, s: Store) returns (r: Result<nat>)
      requires s == Snapshot() && Valid()
      modifies `position, `userPositions, `positionOwner, `locked, `expiringPositions, `nextExpiringBlock
      ensures var end := NextWeek(k.week, unlockTime + s.now); var e := AdmitError(k, s, who, value, end);
        r == if e.Some? then Err(e.value) else Ok(end)
      ensures r.Ok? ==> Snapshot() == Admitted(s, who, r.value) && Core()
    {
      var p :- OpenPosition(who, s);
      if value < config.minMint {
        return Err(BelowMinimumMint);
      }
      var end :- RealUnlockTime(now, unlockTime, s);
      NotListed(s, p, end);
      var _ :- ListNew(p, end, Snapshot());
      r := Ok(end);
    }

    /** Lists a new position under its end. */
    method ListNew(p: PositionId, end: nat, ghost s1: Store) returns (r: Result<()>)
      requires s1 == Snapshot() && Core() && p !in Listed(s1.expiring, end)
      modifies `expiringPositions, `nextExpiringBlock
      ensures r.Err? <==> ListFull(s1, end)
      ensures r.Err? ==> r.error == ExceedsMaxPositions
      ensures r.Ok? ==> Core() && Snapshot() == NewlyListed(s1, p, end)
    {
      r := RecordExpiring(p, end);
      SameButIndex(k, s1, Snapshot());
    }

    /** The deposit into a position that has been admitted. */
    method FillLock(who: Account, value: nat, end: nat, ghost unlockTime: nat, s: Store) returns (r: Result<()>)
      requires k.Sane() && Inv(k, s) && who != k.pool && end == NextWeek(k.week, unlockTime + s.now)
      requires AdmitError(k, s, who, value, end).None?
      requires Snapshot() == Admitted(s, who, end) && Core() && CanCheckpoint()
      modifies `supply, `locked, `userLocked, `incentive, `rewards, `paid, `epoch, `pointHistory, `slopeChanges
      modifies `userPointEpoch, `userPointHistory
      ensures r == Answer(CreateError(k, s, who, value, unlockTime), CreateFits(k, s, value, unlockTime), true)
      ensures r.Ok? ==> Core() && Created(k, s, Snapshot(), who, value, unlockTime)
    {
      ghost var s1 := Snapshot();
      AdmittedReady(k, s, s1, who, value, unlockTime, end);
      r := DepositForInner(who, s.book.next, value, end, NO_LOCK, s1);
      AdmittedFits(k, s, who, value, end);
      if r.Ok? {
        CreatedHere(k, s, Snapshot(), who, value, unlockTime);
      }
    }

    method CreateLockBody(who: Account, value: nat, unlockTime: nat, gaugeOk: bool, s: Store) returns (r: Result<()>)
      requires s == Snapshot() && Valid() && CanCheckpoint() && who != k.pool
      modifies this
      ensures r == Answer(CreateError(k, s, who, value, unlockTime), CreateFits(k, s, value, unlockTime), gaugeOk)
      ensures r.Ok? ==> Core() && Created(k, s, Snapshot(), who, value, unlockTime)
    {
      var end :- AdmitLock(who, value, unlockTime, s);
      r := FillLock(who, value, end, unlockTime, s);
      if r.Ok? && !gaugeOk {
        r := Err(GaugeRefused);
      }
    }

    /** Locks `value` in a new position for `unlockTime` more blocks, rounded up to a week. */
    method CreateLock(who: Account, value: nat, unlockTime: nat, gaugeOk: bool) returns (r: Result<()>)
      requires Valid() && CanCheckpoint() && who != k.pool
      modifies this
      ensures r == Answer(CreateError(k, old(Snapshot()), who, value, unlockTime),
                          CreateFits(k, old(Snapshot()), value, unlockTime), gaugeOk)
      ensures r.Err? ==> Snapshot() == old(Snapshot())
      ensures r.Ok? ==> Valid() && CanCheckpoint() && Created(k, old(Snapshot()), Snapshot(), who, value, unlockTime)
      ensures r.Ok? && old(Guarded()) ==> Guarded()
      ensures Onward(old(now), old(nextExpiringBlock), now, nextExpiringBlock)
    {
      var s := Snapshot();
      r := CreateLockBody(who, value, unlockTime, gaugeOk, s);
      if r.Err? {
        Restore(s);
      } else {
        CreatedIndex(k, s, Snapshot(), who, value, unlockTime);
        CreatedOnward(k, s, Snapshot(), who, value, unlockTime);
      }
    }

    /** Moves a position to the list of its new end. */
    method Relist(p: PositionId, end0: nat, end: nat, ghost s: Store) returns (r: Result<()>)
      requires s == Snapshot() && Valid() && end0 != end && p in s.book.locked && s.book.locked[p].end == end0
      modifies `expiringPositions, `nextExpiringBlock
      ensures r.Err? <==> ListFull(s, end)
      ensures r.Err? ==> r.error == ExceedsMaxPositions
      ensures r.Ok? ==> Snapshot() == Relisted(s, p, end0, end) && Core()
    {
      ListedElsewhere(s, p, end);
      RemoveExpiring(p, end0);
      assert Listed(expiringPositions, end) == Listed(s.expiring, end);
      r := RecordExpiring(p, end);
      SameButIndex(k, s, Snapshot());
    }

    /** Moves a running lock to a later end, in the index and with a checkpoint. */
    method MoveEnd(who: Account, p: PositionId, unlockTime: nat, end: nat, lock: LockedBalance, ghost s: Store)
      returns (r: Result<()>)
      requires s == Snapshot() && Valid() && CanCheckpoint() && who != k.pool
      requires p in s.book.owner && s.book.owner[p] == who && p in s.book.locked
      requires lock == s.book.locked[p] && now < lock.end
      requires end == NextWeek(k.week, unlockTime + lock.end) && !EndRefused(k, s, end)
      modifies `supply, `locked, `userLocked, `incentive, `rewards, `paid, `epoch, `pointHistory, `slopeChanges
      modifies `userPointEpoch, `userPointHistory, `expiringPositions, `nextExpiringBlock
      ensures r == if ListFull(s, end) then Err(ExceedsMaxPositions)
                   else Answer(None, DepositFits(k, s, LockedBalance(lock.amount, end)), true)
      ensures r.Ok? ==> Core() && Extended(k, s, Snapshot(), p, unlockTime)
    {
      ExtendWritable(k, s, p, unlockTime);
      var _ :- Relist(p, lock.end, end, s);
      ghost var s1 := Snapshot();
      IndexFits(k, s, s1);
      var _ :- DepositForInner(who, p, 0, end, lock, s1);
      ExtendedHere(k, s, s1, Snapshot(), p, unlockTime);
      r := Ok(());
    }

    method IncreaseUnlockTimeBody(who: Account, p: PositionId, unlockTime: nat, gaugeOk: bool, s: Store)
      returns (r: Result<()>)
      requires s == Snapshot() && Valid() && CanCheckpoint() && who != k.pool && p in PositionsOf(s.book, who)
      modifies this
      ensures r == Answer(ExtendError(k, s, who, p, unlockTime), ExtendFits(k, s, p, unlockTime), gaugeOk)
      ensures r.Ok? ==> Core() && Extended(k, s, Snapshot(), p, unlockTime)
    {
      OwnsListed(k, s, who, p);
      var lock := Get(locked, p, NO_LOCK);
      if lock.end <= now {
        return Err(Expired);
      }
      var end :- RealUnlockTime(lock.end, unlockTime, s);
      if lock.amount == 0 {
        return Err(LockNotExist);
      }
      var _ :- MoveEnd(who, p, unlockTime, end, lock, s);
      if !gaugeOk {
        return Err(GaugeRefused);
      }
      r := Ok(());
    }

    /** Extends a running lock. */
    method IncreaseUnlockTime(who: Account, p: PositionId, unlockTime: nat, gaugeOk: bool) returns (r: Result<()>)
      requires Valid() && CanCheckpoint() && who != k.pool
      modifies this
      ensures r == Answer(ExtendError(k, old(Snapshot()), who, p, unlockTime),
                          ExtendFits(k, old(Snapshot()), p, unlockTime), gaugeOk)
      ensures r.Err? ==> Snapshot() == old(Snapshot())
      ensures r.Ok? ==> Valid() && CanCheckpoint() && Extended(k, old(Snapshot()), Snapshot(), p, unlockTime)
      ensures r.Ok? && old(Guarded()) ==> Guarded()
      ensures Onward(old(now), old(nextExpiringBlock), now, nextExpiringBlock)
    {
      var s := Snapshot();
      if p !in Get(userPositions, who, []) {
        return Err(LockNotExist);
      }
      r := IncreaseUnlockTimeBody(who, p, unlockTime, gaugeOk, s);
      if r.Err? {
        Restore(s);
      } else {
        ExtendedIndex(k, s, Snapshot(), p, unlockTime);
      }
    }

    method IncreaseAmountBody(who: Account, p: PositionId, value: nat, gaugeOk: bool, s: Store) returns (r: Result<()>)
      requires s == Snapshot() && Valid() && CanCheckpoint() && who != k.pool && p in PositionsOf(s.book, who)
      modifies this
      ensures r == Answer(TopUpError(k, s, who, p, value), TopUpFits(k, s, p, value), gaugeOk)
      ensures r.Ok? ==> Core() && ToppedUp(k, s, Snapshot(), p, value)
    {
      OwnsListed(k, s, who, p);
      if value < config.minMint {
        return Err(BelowMinimumMint);
      }
      var lock := Get(locked, p, NO_LOCK);
      if lock.amount == 0 {
        return Err(LockNotExist);
      }
      if lock.end <= now {
        return Err(Expired);
      }
      var _ :- DepositForInner(who, p, value, 0, lock, s);
      if !gaugeOk {
        return Err(GaugeRefused);
      }
      r := Ok(());
    }

    /** Adds to a running lock. */
    method IncreaseAmount(who: Account, p: PositionId, value: nat, gaugeOk: bool) returns (r: Result<()>)
      requires Valid() && CanCheckpoint() && who != k.pool
      modifies this
      ensures r == Answer(TopUpError(k, old(Snapshot()), who, p, value), TopUpFits(k, old(Snapshot()), p, value),
                          gaugeOk)
      ensures r.Err? ==> Snapshot() == old(Snapshot())
      ensures r.Ok? ==> Valid() && CanCheckpoint() && ToppedUp(k, old(Snapshot()), Snapshot(), p, value)
      ensures r.Ok? && old(Guarded()) ==> Guarded()
      ensures Onward(old(now), old(nextExpiringBlock), now, nextExpiringBlock)
    {
      var s := Snapshot();
      if p !in Get(userPositions, who, []) {
        return Err(LockNotExist);
      }
      r := IncreaseAmountBody(who, p, value, gaugeOk, s);
      if r.Err? {
        Restore(s);
      } else {
        ToppedUpIndex(k, s, Snapshot(), p, value);
      }
    }

    // ---- Claims and reward rounds ------------------------------------------------------

    /** A reward update between calls. */
    method UpdateAccounts(who: Option<Account>, ghost s: Store) returns (r: Result<()>)
      requires s == Snapshot() && Core()
      modifies `incentive, `rewards, `paid
      ensures r.Ok? ==> AccountsState() == Updated(k, s, who).accounts
      ensures who.None? && r.Err? ==> AccountsState() == s.accounts
      ensures r == if Fits(k, s) then Ok(()) else Err(Overflow)
    {
      ghost var c := LineOf(k.maxBlock, locked);
      CurveKnown(k, s);
      UpdateFits(k, s, who, TotalNow(k, s), CreditedNow(k, s, who));
      r := UpdateReward(who, c, TotalNow(k, s), CreditedNow(k, s, who));
    }

    /** The same, as a change of the whole storage. */
    method UpdateRewardNow(who: Option<Account>, ghost s: Store) returns (r: Result<()>)
      requires s == Snapshot() && Core()
      modifies `incentive, `rewards, `paid
      ensures r.Ok? ==> Snapshot() == Updated(k, s, who)
      ensures who.None? && r.Err? ==> Snapshot() == s
      ensures r == if Fits(k, s) then Ok(()) else Err(Overflow)
    {
      r := UpdateAccounts(who, s);
    }

    /** Pays an account its stored rewards. The pool has what it takes, so the only thing that can
        go wrong is that the receiver's balance does not fit. */
    method PayRewards(who: Account, due: Amounts) returns (r: Result<()>)
      requires who != k.pool && Get(userLocked, k.pool, 0) == 0
      requires forall c :: Get(due, c, 0) <= Held(free, c, k.pool)
      modifies `free
      ensures r.Ok? ==> forall c :: Moved(old(free), free, k.pool, who, Get(due, c, 0), c)
      ensures r == if PaymentFits(old(free), due, who) then Ok(()) else Err(Overflow)
    {
      ghost var before := free;
      var todo := due.Keys;
      while todo != {}
        invariant todo <= due.Keys
        invariant forall c :: Moved(before, free, k.pool, who, Without(due, todo)(c), c)
        decreases todo
      {
        var currency :| currency in todo;
        ghost var now, x, x' := free, Without(due, todo), Without(due, todo - {currency});
        assert Moved(before, now, k.pool, who, x(currency), currency);
        assert Get(due, currency, 0) <= Held(before, currency, k.pool);
        var _ :- Transfer(currency, k.pool, who, due[currency]);
        assert due[currency] == 0 ==> x'(currency) == 0;
        NextMoved(before, now, free, k.pool, who, x, x', currency);
        todo := todo - {currency};
      }
      forall c
        ensures Moved(before, free, k.pool, who, Get(due, c, 0), c)
        ensures c in due ==> Held(before, c, who) + due[c] <= U128_MAX
      {
        assert Moved(before, free, k.pool, who, Without(due, todo)(c), c);
      }
      r := Ok(());
    }

    /** The payment of a claim, in a pool that has been settled for the account. */
    method TakeRewards(who: Account, ghost s: Store) returns (r: Result<()>)
      requires s == Snapshot() && Core() && who != k.pool && who in rewards
      modifies `rewards, `free
      ensures r.Ok? ==> Claimed(k, s, Snapshot(), who)
      ensures r == if PaymentFits(s.free, s.accounts.rewards[who], who) then Ok(()) else Err(Overflow)
    {
      forall c
        ensures Get(rewards[who], c, 0) <= Held(free, c, k.pool) && Get(userLocked, k.pool, 0) == 0
      {
        ClaimCovered(k, s, who, c);
      }
      assert Get(userLocked, k.pool, 0) == 0 by { ClaimCovered(k, s, who, k.token); }
      var _ :- PayRewards(who, rewards[who]);
      rewards := rewards - {who};
      r := Ok(());
    }

    /** A claim in a pool that has been settled for the account. */
    method ClaimSettled(who: Account, ghost s: Store, ghost s1: Store) returns (r: Result<()>)
      requires s1 == Snapshot() == Updated(k, s, Some(who)) && Core() && who != k.pool && Fits(k, s)
      modifies `rewards, `free
      ensures r.Ok? ==> RewardsTaken(k, s, Snapshot(), who)
      ensures r == if ClaimFits(k, s, who) then Ok(()) else Err(Overflow)
    {
      UpdatedReadable(k, s, s1, who);
      var balance :- BalanceOfCurrentBlock(who);
      assert balance == CreditedNow(k, s, Some(who));
      if balance == 0 || who !in rewards {
        return Ok(());
      }
      r := TakeRewards(who, s1);
    }

    method GetRewardsBody(who: Account, ghost s: Store) returns (r: Result<()>)
      requires s == Snapshot() && Core() && who != k.pool
      modifies `incentive, `rewards, `paid, `free
      ensures r.Ok? ==> RewardsTaken(k, s, Snapshot(), who)
      ensures r == if Fits(k, s) && ClaimFits(k, s, who) then Ok(()) else Err(Overflow)
    {
      var _ :- UpdateRewardNow(Some(who), s);
      UpdatedInv(k, s, Some(who));
      r := ClaimSettled(who, s, Updated(k, s, Some(who)));
    }

    /** A claim. It never fails for lack of funds in the pool: it succeeds exactly if the update fits, and the
        receiver's balances fit what is paid. */
    method GetRewards(who: Account) returns (r: Result<()>)
      requires Valid() && who != k.pool
      modifies this
      ensures r == if Fits(k, old(Snapshot())) && ClaimFits(k, old(Snapshot()), who) then Ok(()) else Err(Overflow)
      ensures r.Err? ==> Snapshot() == old(Snapshot())
      ensures r.Ok? ==> Valid() && RewardsTaken(k, old(Snapshot()), Snapshot(), who)
      ensures old(CanCheckpoint()) ==> CanCheckpoint()
      ensures old(Guarded()) ==> Guarded()
      ensures Onward(old(now), old(nextExpiringBlock), now, nextExpiringBlock)
    {
      var s := Snapshot();
      r := GetRewardsBody(who, s);
      if r.Err? {
        Restore(s);
      } else {
        RewardsTakenInv(k, s, Snapshot(), who);
      }
    }

    /** One currency of a new round: its new rate, and the controller's balance moved to the pool. */
    method AddOne(who: Account, conf: IncentiveConfig, c: Currency, remaining: nat) returns (r: Result<Balance>)
      requires who != k.pool
      modifies `free
      ensures r.Ok? ==> conf.rewardsDuration > 0 && r.value == NewRate(conf, remaining, Held(old(free), c, who), c)
      ensures r.Ok? ==> free == Sent(old(free), c, who, k.pool, Held(old(free), c, who))
      ensures r.Ok? && Held(old(free), c, who) != 0 ==>
        Frozen(c, who) == 0 && Held(old(free), c, k.pool) + Held(old(free), c, who) <= U128_MAX
      ensures Get(conf.rewardRate, c, 0) * remaining <= Held(old(free), c, k.pool) ==>
        Refusal(r) == GiveError(k, old(free), userLocked, who, conf.rewardsDuration, c)
    {
      var reward := Held(free, c, who);
      var rate :- CheckedRate(conf, remaining, reward, Held(free, c, k.pool), c);
      // A round without new reward for a currency is only recorded.
      if reward != 0 {
        var _ :- Transfer(c, who, k.pool, reward);
      }
      r := Ok(rate);
    }

    /** The rates of the listed currencies in a new round; the controller's balances move to the pool. */
    method AddReward(who: Account, conf: IncentiveConfig, list: seq<Currency>, remaining: nat)
      returns (r: Result<IncentiveConfig>)
      requires who != k.pool && Distinct(list)
      modifies `free
      ensures r.Ok? ==> RoundGiven(k, old(free), free, who, conf, r.value, list, remaining)
      ensures r.Ok? && k.token in list && Held(old(free), k.token, who) != 0 ==> Frozen(k.token, who) == 0
      ensures r.Err? ==> free == old(free)
      ensures Covered(k, old(free), conf, remaining) ==>
        Refusal(r) == RoundError(k, old(free), userLocked, who, conf.rewardsDuration, list)
    {
      var before := free;
      var rates: Amounts := conf.rewardRate;
      for i := 0 to |list|
        invariant RoundGiven(k, before, free, who, conf, conf.(rewardRate := rates), list[..i], remaining)
        invariant k.token in list[..i] && Held(before, k.token, who) != 0 ==> Frozen(k.token, who) == 0
        invariant Covered(k, before, conf, remaining) ==>
          RoundError(k, before, userLocked, who, conf.rewardsDuration, list)
            == RoundError(k, before, userLocked, who, conf.rewardsDuration, list[i..])
      {
        var c := list[i];
        NotYetGiven(k, before, free, who, conf, conf.(rewardRate := rates), list, i, remaining);
        ghost var mid := free;
        var rate := AddOne(who, conf.(rewardRate := rates), c, remaining);
        assert Covered(k, before, conf, remaining) ==> CoveredIn(k, before, conf, remaining, c);
        if rate.Err? {
          free := before;
          return Err(rate.error);
        }
        GivenMore(k, before, mid, free, who, conf, rates, list, i, remaining);
        rates := rates[c := rate.value];
      }
      assert list[..|list|] == list;
      r := Ok(conf.(rewardRate := rates));
    }

    /** The leftover of the running round, in blocks. */
    function Remaining(): nat
      reads `incentive, `now
    {
      if incentive.periodFinish <= now then 0 else incentive.periodFinish - now
    }

    /** Writes the configuration of a round that has been funded. */
    method BeginRound(who: Account, list: seq<Currency>, conf: IncentiveConfig, ghost s: Store)
      requires Snapshot() == s.(free := free) && k.Sane() && Inv(k, s)
      requires who != k.pool && Distinct(list)
      requires s.accounts.conf.lastUpdateTime == LastTimeApplicable(s.accounts.conf, s.now)
      requires RoundGiven(k, s.free, free, who, s.accounts.conf, conf, list,
                          SatSub(s.accounts.conf.periodFinish, s.now))
      requires k.token in list && Held(s.free, k.token, who) != 0 ==> Get(s.book.userLocked, who, 0) == 0
      modifies `incentive
      ensures RoundStarted(k, s, Snapshot(), who, list) && (ListsAll(s.accounts.conf, list) ==> Core())
    {
      RoundDone(k, s, free, who, list, conf);
      incentive := Started(conf, now, who, list);
    }

    /** Funds a round in a settled pool and starts it. */
    method StartRound(who: Account, list: seq<Currency>, ghost s: Store) returns (r: Result<()>)
      requires s == Snapshot() && Core() && who != k.pool && Distinct(list)
      requires incentive.lastUpdateTime == LastTimeApplicable(incentive, now)
      modifies `incentive, `free
      ensures r.Ok? ==> RoundStarted(k, s, Snapshot(), who, list) && (ListsAll(s.accounts.conf, list) ==> Core())
      ensures r.Err? ==> Snapshot() == s
      ensures Refusal(r) == RoundError(k, s.free, s.book.userLocked, who, s.accounts.conf.rewardsDuration, list)
    {
      RoundFunded(k, s);
      var given := AddReward(who, incentive, list, Remaining());
      if given.Err? {
        return Err(given.error);
      }
      BeginRound(who, list, given.value, s);
      r := Ok(());
    }

    /** Starts a round, paid by `controller`. It is no transaction of its own: when the funding fails
        the pool has still been settled. With nothing of its payer locked it cannot fail for lack
        of funds. */
    method NotifyRewardAmount(controller: Option<Account>, list: seq<Currency>, ghost s: Store) returns (r: Result<()>)
      requires s == Snapshot() && Core()
      requires controller.Some? ==> controller.value != k.pool && Distinct(list)
      modifies `incentive, `rewards, `paid, `free
      ensures r.Ok? ==> controller.Some? && RoundStarted(k, Updated(k, s, None), Snapshot(), controller.value, list)
      ensures r.Err? ==> Snapshot() == if controller.Some? && Fits(k, s) then Updated(k, s, None) else s
      ensures Snapshot() == s.(accounts := AccountsState(), free := free)
      ensures r.Err? || ListsAll(s.accounts.conf, list) ==> Core()
      ensures Refusal(r) == if controller.None? then Some(NoController)
        else NotifyError(k, s, controller.value, s.accounts.conf.rewardsDuration, list)
      ensures Fits(k, Snapshot()) <==> Fits(k, s)
    {
      if controller.None? {
        return Err(NoController);
      }
      var _ :- UpdateRewardNow(None, s);
      UpdatedInv(k, s, None);
      UpdatedSettled(k, s);
      UpdatedFits(k, s, Updated(k, s, None));
      r := StartRound(controller.value, list, Updated(k, s, None));
      if r.Ok? {
        StartedFits(k, s, Snapshot(), controller.value, list);
      }
    }

    method SetIncentive(duration: Option<nat>, controller: Option<Account>)
      modifies `incentive
      ensures incentive == old(incentive).(
        rewardsDuration := if duration.Some? then duration.value else old(incentive).rewardsDuration,
        controller := if controller.Some? then controller else old(incentive).controller)
    {
      if duration.Some? {
        incentive := incentive.(rewardsDuration := duration.value);
      }
      if controller.Some? {
        incentive := incentive.(controller := controller);
      }
    }

    /** Sets the controller and the duration and starts a round at once. With a list that names every
        currency being paid the invariant is kept. */
    method NotifyRewards(from: Account, duration: Option<nat>, list: seq<Currency>) returns (r: Result<()>)
      requires Valid() && from != k.pool && Distinct(list)
      modifies this
      ensures r.Err? ==> Snapshot() == old(Snapshot())
      ensures r.Ok? && ListsAll(old(incentive), list) ==> Valid()
      ensures r.Ok? ==>
        RoundStarted(k, Updated(k, Configured(old(Snapshot()), from, duration), None), Snapshot(), from, list)
      ensures Refusal(r) == NotifyError(k, old(Snapshot()), from, DurationAfter(old(incentive), duration), list)
      ensures r.Err? && Get(userLocked, from, 0) == 0 ==> r.error == Overflow
      ensures old(CanCheckpoint()) ==> CanCheckpoint()
      ensures old(Guarded()) ==> Guarded()
      ensures Onward(old(now), old(nextExpiringBlock), now, nextExpiringBlock)
    {
      var s := Snapshot();
      SetIncentive(duration, Some(from));
      SettingsInv(k, s, Snapshot(), incentive.rewardsDuration, Some(from));
      SettingsFit(k, s, from, duration);
      r := NotifyRewardAmount(Some(from), list, Configured(s, from, duration));
      if r.Err? {
        Restore(s);
      }
    }

    // ---- Queries -----------------------------------------------------------------------

    static method ReportPending(mult: pos, rpt: Amounts, paidTo: Amounts, balance: nat) returns (report: Amounts)
      ensures report == Preview(mult, rpt, paidTo, balance)
    {
      var todo := rpt.Keys;
      report := map[];
      while todo != {}
        invariant todo <= rpt.Keys
        invariant report == PreviewOver(mult, rpt, paidTo, balance, rpt.Keys - todo)
        decreases todo
      {
        var currency :| currency in todo;
        if Get(paidTo, currency, 0) <= rpt[currency] {
          report := report[currency := Min(Pending(mult, rpt, paidTo, balance, currency), U128_MAX)];
        }
        todo := todo - {currency};
      }
      assert rpt.Keys - todo == rpt.Keys;
    }

    /** The rewards an account would be credited with now. */
    method QueryPendingRewards(who: Account) returns (r: Result<Amounts>)
      requires Core()
      ensures r == if incentive.controller.None? then Err(NoController)
                   else if !Fits(k, Snapshot()) then Err(Overflow) else Ok(Reported(k, Snapshot(), who))
    {
      if incentive.controller.None? {
        return Err(NoController);
      }
      ghost var c, s := LineOf(k.maxBlock, locked), Snapshot();
      CurveKnown(k, s);
      FitsMeaning(k, s);
      if Fits(k, s) {
        CreditNow(k, s, who);
      }
      var conf :- CalculateRewardPerToken(c);
      var balance :- BalanceOfCurrentBlock(who);
      var report := ReportPending(k.multiplier, conf.rewardPerToken, Get(paid, who, map[]), balance);
      r := Ok(report);
    }

    /** A position's epoch at block t, by bisection. The 128 steps are enough for fewer than 2^128 epochs. */
    static method UserEpochAt(h: UserHistory, p: PositionId, epoch: nat, t: nat) returns (e: nat)
      requires Ordered(UserBlocks(h, p), epoch) && epoch <= U128_MAX
      ensures e == EpochAt(UserBlocks(h, p), epoch, t)
    {
      ghost var blocks, n: nat := UserBlocks(h, p), STEPS;
      AllEpochs();
      var min: nat, max: nat := 0, epoch;
      for i := 0 to STEPS
        invariant min <= max <= epoch && Brackets(blocks, epoch, t, min, max)
        invariant n == STEPS - i && max - min < Pow2(n)
      {
        if min >= max {
          break;
        }
        var mid := (min + max + 1) / 2;
        BracketsMid(blocks, epoch, t, min, max, mid);
        if UserPoint(h, p, mid).block <= t {
          min := mid;
        } else {
          max := mid - 1;
        }
        n := n - 1;
      }
      EpochAtUnique(blocks, epoch, t, min);
      e := min;
    }

    /** The global epoch at block t, by bisection. */
    method FindBlockEpoch(t: nat, maxEpoch: nat) returns (e: nat)
      requires Core() && maxEpoch <= epoch <= U128_MAX
      ensures e == EpochAt(GlobalBlocks(pointHistory), maxEpoch, t)
    {
      ghost var blocks, n: nat := GlobalBlocks(pointHistory), STEPS;
      AllEpochs();
      GlobalOrdered(k, Snapshot(), maxEpoch);
      var min: nat, max: nat := 0, maxEpoch;
      for i := 0 to STEPS
        invariant min <= max <= maxEpoch && Brackets(blocks, maxEpoch, t, min, max)
        invariant n == STEPS - i && max - min < Pow2(n)
      {
        if min >= max {
          break;
        }
        var mid := (min + max + 1) / 2;
        BracketsMid(blocks, maxEpoch, t, min, max, mid);
        if GlobalPoint(pointHistory, mid).block <= t {
          min := mid;
        } else {
          max := mid - 1;
        }
        n := n - 1;
      }
      EpochAtUnique(blocks, maxEpoch, t, min);
      e := min;
    }

    /** Voting power of a position at block t. For a block that has passed this is the power the
        position had at the end of it, however its lock has changed since. */
    method BalanceOfPositionAt(p: PositionId, t: nat) returns (r: Result<nat>)
      requires Core() && Get(userPointEpoch, p, 0) <= U128_MAX
      ensures r == if PastReadable(locked, userPointEpoch, userPointHistory, p, t)
                   then U128(PastPower(k.voteWeight, locked, userPointEpoch, userPointHistory, p, t))
                   else Err(Overflow)
      ensures p in positionOwner && (p, t) in recorded ==> r == U128(recorded[(p, t)])
    {
      PositionOrdered(k, Snapshot(), p, t);
      var lock := Get(locked, p, NO_LOCK);
      if t >= lock.end {
        return Ok(0);
      }
      var e := UserEpochAt(userPointHistory, p, Get(userPointEpoch, p, 0), t);
      r := CheckedPointPower(k.voteWeight, UserPoint(userPointHistory, p, e), t);
    }

    /** The loop over the positions of an account. */
    method AddPast(positions: seq<PositionId>, t: nat) returns (r: Result<nat>)
      requires Core() && forall p :: p in positions ==> Get(userPointEpoch, p, 0) <= U128_MAX
      ensures r == if AllPastReadable(positions, locked, userPointEpoch, userPointHistory, t)
                   then U128(PastTotal(k.voteWeight, locked, userPointEpoch, userPointHistory, positions, t))
                   else Err(Overflow)
    {
      var balance := 0;
      for i := 0 to |positions|
        invariant balance == PastTotal(k.voteWeight, locked, userPointEpoch, userPointHistory, positions[..i], t)
          <= U128_MAX
        invariant forall j :: 0 <= j < i ==> PastReadable(locked, userPointEpoch, userPointHistory, positions[j], t)
      {
        PastTotalGrows(k.voteWeight, locked, userPointEpoch, userPointHistory, positions, i + 1, t);
        assert positions[..i + 1][..i] == positions[..i];
        var power :- BalanceOfPositionAt(positions[i], t);
        balance :- U128(balance + power);
      }
      assert positions[..|positions|] == positions;
      r := Ok(balance);
    }

    /** Voting power of an account at block t. For a block that has passed it is what the positions that are
        still the account's own were worth at the end of it. */
    method BalanceOfAt(who: Account, t: nat) returns (r: Result<nat>)
      requires Core() && forall p :: p in Get(userPositions, who, []) ==> Get(userPointEpoch, p, 0) <= U128_MAX
      ensures r == if AllPastReadable(Get(userPositions, who, []), locked, userPointEpoch, userPointHistory, t)
                   then U128(PastTotal(k.voteWeight, locked, userPointEpoch, userPointHistory,
                                       Get(userPositions, who, []), t))
                   else Err(Overflow)
      ensures AllKnown(Snapshot(), who, t) ==> r == U128(RecordedTotal(Snapshot(), who, t))
    {
      if AllKnown(Snapshot(), who, t) {
        AccountPast(k, Snapshot(), who, t);
      }
      r := AddPast(Get(userPositions, who, []), t);
    }

    // ---- Blocks ------------------------------------------------------------------------

    /** Whether the amounts of a payment fit now. */
    ghost predicate FitsNow()
      reads this
    {
      Fits(k, Snapshot())
    }

    /** Pays out one position of block `at`'s list if there is something in it, which fails exactly if the payment
        does not go through. A listed position always has an owner, so the branch for a missing one is not reached. */
    method PayOutExpired(p: PositionId, at: nat, gaugeOk: PositionId -> bool, ghost gone: seq<PositionId>)
      returns (ok: bool, ghost paid: bool)
      requires Core() && CanCheckpoint() && at <= now
      requires AgreesExcept(locked, positionOwner, expiringPositions, at, gone)
      requires p in Listed(expiringPositions, at) && p !in gone
      modifies this
      ensures Core() && CanCheckpoint() && FitsNow() == old(FitsNow())
      ensures Handles(k, old(Snapshot()), Snapshot(), at, gaugeOk, old(FitsNow()), p, gone, paid, ok)
    {
      ghost var s := Snapshot();
      ok, paid := true, false;
      assert EntryKept(locked, positionOwner, expiringPositions, at, gone, at, p);
      var lock := Get(locked, p, NO_LOCK);
      if lock.end <= now && lock.amount != 0 {
        if p in positionOwner {
          var w := WithdrawNoEnsure(positionOwner[p], p, lock, None, gaugeOk(p));
          ok := w.Ok?;
          if ok {
            WithdrawnFits(k, s, Snapshot(), p, 0);
            AutoWithdrawAgrees(s.book.locked, s.book.owner, s.expiring, at, gone, p);
            assert locked == s.book.locked[p := NO_LOCK] && positionOwner == s.book.owner - {p};
            paid := true;
          }
        } else {
          assert false;
        }
      }
    }

    /** The next position of block `at`'s list. */
    method DrainNext(at: nat, gaugeOk: PositionId -> bool, p: PositionId, ghost i: nat, done: seq<PositionId>,
            failed: nat, ghost gone: seq<PositionId>, ghost row: Row, ghost s: Store, ghost fits: bool)
      returns (done': seq<PositionId>, failed': nat, ghost gone': seq<PositionId>, ghost row': Row)
      requires Core() && CanCheckpoint() && at <= now == s.now && FitsNow() == fits
      requires Progress(k, s, Snapshot(), at, gaugeOk, fits, i, done, failed, gone, row)
      requires i < |Listed(s.expiring, at)| && p == Listed(s.expiring, at)[i]
      modifies this
      ensures Core() && CanCheckpoint() && now == s.now && config == old(config) && FitsNow() == fits
      ensures Progress(k, s, Snapshot(), at, gaugeOk, fits, i + 1, done', failed', gone', row') && |done'| <= |done| + 1
    {
      ghost var s0 := Snapshot();
      ProgressIs(k, s, s0, at, gaugeOk, fits, i, done, failed, gone, row);
      var ok;
      ghost var paid;
      ok, paid := PayOutExpired(p, at, gaugeOk, gone);
      ProgressMade(k, s, s0, Snapshot(), at, gaugeOk, fits, i, done, failed, gone, row, paid, ok);
      gone', row' := Appended(gone, p, paid), RowAfter(row, s0, p, paid);
      if ok {
        done', failed' := done + [p], failed;
      } else {
        done', failed' := done, failed + 1;
      }
      assert done' == Appended(done, p, ok) && failed' == if ok then failed else failed + 1;
    }

    /** Works off block `at`'s list, up to the limit. */
    method DrainList(at: nat, count: nat, gaugeOk: PositionId -> bool, list: seq<PositionId>)
      returns (done: seq<PositionId>, failed: nat, exhausted: bool,
              ghost n: nat, ghost gone: seq<PositionId>, ghost row: Row)
      requires Core() && CanCheckpoint() && at <= now && count <= config.maxPerBlock
      requires list == Listed(expiringPositions, at)
      requires Progress(k, Snapshot(), Snapshot(), at, gaugeOk, FitsNow(), 0, [], 0, [], Nothing)
      modifies this
      ensures Core() && CanCheckpoint() && config == old(config) && FitsNow() == old(FitsNow())
      ensures Progress(k, old(Snapshot()), Snapshot(), at, gaugeOk, old(FitsNow()), n, done, failed, gone, row)
      ensures count + |done| <= config.maxPerBlock
      ensures if exhausted then count + |done| == config.maxPerBlock && n < |list| else n == |list|
    {
      ghost var s, fits := Snapshot(), FitsNow();
      done, gone, row, failed, exhausted, n := [], [], Nothing, 0, false, 0;
      for i := 0 to |list|
        invariant Core() && CanCheckpoint() && now == s.now && config == s.config && FitsNow() == fits
        invariant Progress(k, s, Snapshot(), at, gaugeOk, fits, n, done, failed, gone, row)
        invariant !exhausted && count + |done| <= config.maxPerBlock && n == i
      {
        if count + |done| >= config.maxPerBlock {
          exhausted := true;
          break;
        }
        done, failed, gone, row := DrainNext(at, gaugeOk, list[i], n, done, failed, gone, row, s, fits);
        n := n + 1;
      }
    }

    /** Takes the positions that have been handled off block `at`'s list. */
    method SweepList(at: nat, list: seq<PositionId>, done: seq<PositionId>, ghost gone: seq<PositionId>)
      requires list == Listed(expiringPositions, at) && Handled(locked, list, |list|, done, gone)
      requires AgreesExcept(locked, positionOwner, expiringPositions, at, gone)
      modifies `expiringPositions
      ensures Agrees(locked, positionOwner, expiringPositions)
      ensures |FilterOut(list, done)| == |list| - |done| && Listed(expiringPositions, at) == FilterOut(list, done)
      ensures forall b: nat :: b != at ==> Listed(expiringPositions, b) == Listed(old(expiringPositions), b)
    {
      ghost var index := expiringPositions;
      assert ListRight(index, at);
      HandledSize(locked, list, done, gone);
      if |done| == |list| {
        expiringPositions := expiringPositions - {at};
      } else {
        expiringPositions := expiringPositions[at := FilterOut(list, done)];
      }
      SweepAgrees(locked, positionOwner, index, at, gone, done, expiringPositions);
    }

    /** The end of the work on a list. */
    method FinishList(at: nat, ghost count: nat, ghost gaugeOk: PositionId -> bool, list: seq<PositionId>,
            done: seq<PositionId>, ghost failed: nat, ghost exhausted: bool, ghost n: nat, ghost gone: seq<PositionId>,
            ghost row: Row, ghost s: Store)
      requires Core() && CanCheckpoint() && list == Listed(s.expiring, at)
      requires Progress(k, s, Snapshot(), at, gaugeOk, FitsNow(), n, done, failed, gone, row)
      requires count + |done| <= config.maxPerBlock
      requires if exhausted then count + |done| == config.maxPerBlock && n < |list| else n == |list|
      modifies `expiringPositions
      ensures Valid() && CanCheckpoint() && FitsNow() == old(FitsNow())
      ensures ListDone(k, s, Snapshot(), at, count, gaugeOk, FitsNow(), |done|, failed, exhausted, row)
    {
      ghost var s1, fits := Snapshot(), FitsNow();
      ProgressIs(k, s, s1, at, gaugeOk, fits, n, done, failed, gone, row);
      SweepList(at, list, done, gone);
      SameButIndex(k, s1, Snapshot());
      IndexFits(k, s1, Snapshot());
      ListFinished(k, s, s1, Snapshot(), at, count, gaugeOk, fits, n, done, failed, gone, exhausted, row);
    }

    /** One block's list: afterwards it is shorter by the positions handled, and the other lists are
        as they were. */
    method DrainBlock(at: nat, count: nat, gaugeOk: PositionId -> bool)
      returns (handled: nat, failed: nat, exhausted: bool, ghost row: Row)
      requires Valid() && CanCheckpoint() && at <= now && count <= config.maxPerBlock
      modifies this
      ensures Valid() && CanCheckpoint() && FitsNow() == old(FitsNow())
      ensures ListDone(k, old(Snapshot()), Snapshot(), at, count, gaugeOk, FitsNow(), handled, failed, exhausted, row)
    {
      var list := Listed(expiringPositions, at);
      handled, failed, exhausted, row := 0, 0, false, Nothing;
      if list == [] {
        NothingListedAt(k, Snapshot(), at, count, gaugeOk, FitsNow());
      } else {
        ghost var s := Snapshot();
        var done;
        ghost var n, gone;
        ProgressBegins(k, s, at, gaugeOk, FitsNow());
        done, failed, exhausted, n, gone, row := DrainList(at, count, gaugeOk, list);
        handled := |done|;
        FinishList(at, count, gaugeOk, list, done, failed, exhausted, n, gone, row, s);
      }
    }

    /** A position that still holds something. */
    predicate IsPending(p: PositionId)
      reads `locked, `positionOwner
    {
      p in positionOwner && p in locked && 0 < locked[p].amount
    }

    /** The next list. */
    method DrainFurther(next: nat, handled: nat, gaugeOk: PositionId -> bool, ghost failed: nat, ghost row: Row,
            ghost s: Store, ghost fits: bool)
      returns (h: nat, f: nat, exhausted: bool, ghost row': Row)
      requires Valid() && CanCheckpoint() && next <= now == s.now && IndexOk(s) && FitsNow() == fits
      requires Advanced(k, s, Snapshot(), next, handled, failed, false, gaugeOk, fits, row)
      modifies this
      ensures Valid() && CanCheckpoint() && now == s.now && FitsNow() == fits
      ensures Advanced(k, s, Snapshot(), next + 1, handled + h, failed + f, exhausted, gaugeOk, fits, row')
    {
      ghost var s1, more := Snapshot(), Nothing;
      AdvanceIs(k, s, s1, next, handled, failed, false, gaugeOk, fits, row);
      h, f, exhausted, more := DrainBlock(next, handled, gaugeOk);
      AdvancedBy(k, s, s1, Snapshot(), next, handled, failed, gaugeOk, fits, row, h, f, exhausted, more);
      row' := Joined(row, more);
    }

    /** Works off the lists from the cursor up to the current block. */
    method DrainDue(gaugeOk: PositionId -> bool)
      returns (next: nat, handled: nat, failed: nat, exhausted: bool, ghost row: Row)
      requires Valid() && CanCheckpoint() && 0 < nextExpiringBlock <= now
      modifies this
      ensures Valid() && CanCheckpoint()
      ensures Advanced(k, old(Snapshot()), Snapshot(), next, handled, failed, exhausted, gaugeOk, old(FitsNow()), row)
      ensures exhausted || next == old(now) + 1
    {
      ghost var s, fits := Snapshot(), FitsNow();
      next, handled, failed, exhausted, row := nextExpiringBlock, 0, 0, false, Nothing;
      AdvanceBegins(k, s, gaugeOk, fits);
      while next <= now && !exhausted
        invariant Valid() && CanCheckpoint() && now == s.now && next <= now + 1 && FitsNow() == fits
        invariant Advanced(k, s, Snapshot(), next, handled, failed, exhausted, gaugeOk, fits, row)
        decreases now + 1 - next, !exhausted
      {
        var h, f;
        h, f, exhausted, row := DrainFurther(next, handled, gaugeOk, failed, row, s, fits);
        handled, failed, next := handled + h, failed + f, next + 1;
      }
    }

    /** What automatic withdrawal finds due fits its limit, and for what holds something of it amounts fit and
        the gauge accepts. */
    ghost predicate Payable(gaugeOk: PositionId -> bool)
      reads this
    {
      AllPayable(Snapshot(), gaugeOk, FitsNow())
    }

    /** Automatic withdrawal when the cursor has been reached. */
    method PayOutDue(gaugeOk: PositionId -> bool) returns (handled: nat, failed: nat, ghost row: Row)
      requires Valid() && CanCheckpoint() && 0 < nextExpiringBlock <= now
      modifies this
      ensures Valid() && CanCheckpoint() && config == old(config) && now == old(now)
      ensures PaidOut(k, old(Snapshot()), Snapshot(), row) && Length(row) <= handled <= config.maxPerBlock
      ensures DueWorked(old(Snapshot()), Snapshot(), gaugeOk, old(FitsNow()), handled)
      ensures old(Guarded()) ==> (Guarded() <==> old(Payable(gaugeOk)))
      ensures Guarded() ==> now < nextExpiringBlock
    {
      ghost var s, fits := Snapshot(), FitsNow();
      var next, exhausted;
      next, handled, failed, exhausted, row := DrainDue(gaugeOk);
      ghost var s1 := Snapshot();
      AdvanceIs(k, s, s1, next, handled, failed, exhausted, gaugeOk, fits, row);
      nextExpiringBlock := if exhausted then next else now + 1;
      ghost var s2 := Snapshot();
      SameButIndex(k, s1, s2);
      assert s2 == s1.(nextExpiring := next);
      AdvanceEnds(k, s, s1, s2, handled, failed, exhausted, gaugeOk, fits, row);
    }

    /** Automatic withdrawal. It never handles more positions than the limit allows. The cursor misses
        nothing afterwards exactly when everything due fits the limit and can be paid; otherwise positions are
        left behind it. Lists before the cursor are not touched. */
    method AutoWithdraw(gaugeOk: PositionId -> bool) returns (handled: nat, failed: nat, ghost row: Row)
      requires Valid() && CanCheckpoint()
      modifies this
      ensures Valid() && CanCheckpoint() && config == old(config) && now == old(now)
      ensures PaidOut(k, old(Snapshot()), Snapshot(), row) && Length(row) <= handled <= config.maxPerBlock
      ensures if old(0 < nextExpiringBlock <= now)
              then DueWorked(old(Snapshot()), Snapshot(), gaugeOk, old(FitsNow()), handled)
              else Snapshot() == old(Snapshot())
      ensures old(Guarded()) ==> (Guarded() <==> old(Payable(gaugeOk)))
      ensures Guarded() ==> forall p :: IsPending(p) ==> now < locked[p].end
      ensures Onward(old(now), old(nextExpiringBlock), now, nextExpiringBlock)
    {
      handled, failed, row := 0, 0, Nothing;
      if nextExpiringBlock != 0 && nextExpiringBlock <= now {
        handled, failed, row := PayOutDue(gaugeOk);
      } else {
        NothingPayable(Snapshot(), gaugeOk, FitsNow());
      }
      if Guarded() {
        forall p | IsPending(p)
          ensures now < locked[p].end
        {
          NothingDue(locked, positionOwner, expiringPositions, nextExpiringBlock, now, p);
        }
      }
    }

    /** The next reward round, if the last one has just ended. */
    method RenewRound(ghost gaugeOk: PositionId -> bool)
      requires Valid()
      modifies `incentive, `rewards, `paid, `free
      ensures Valid() && RoundRenewed(k, old(Snapshot()), Snapshot())
      ensures Snapshot() == old(Snapshot()).(accounts := AccountsState(), free := free)
      ensures FitsNow() == old(FitsNow()) && (Payable(gaugeOk) <==> old(Payable(gaugeOk)))
    {
      if now == incentive.periodFinish {
        ghost var s := Snapshot();
        AutoRenewable(k, s);
        var _ := NotifyRewardAmount(incentive.controller, incentive.lastReward, s);
        SamePayable(s, Snapshot(), gaugeOk, FitsNow());
      }
    }

    /** The work at the start of a block: the next reward round, if the last one has just ended, and
        automatic withdrawal. */
    method OnInitialize(gaugeOk: PositionId -> bool)
      returns (handled: nat, failed: nat, ghost renewed: Store, ghost row: Row)
      requires Valid() && CanCheckpoint()
      modifies this
      ensures Valid() && CanCheckpoint() && config == old(config) && now == old(now)
      ensures RoundRenewed(k, old(Snapshot()), renewed)
      ensures PaidOut(k, renewed, Snapshot(), row) && Length(row) <= handled <= config.maxPerBlock
      ensures if old(0 < nextExpiringBlock <= now)
              then DueWorked(renewed, Snapshot(), gaugeOk, old(FitsNow()), handled) else Snapshot() == renewed
      ensures old(Guarded()) ==> (Guarded() <==> old(Payable(gaugeOk)))
      ensures Guarded() ==> forall p :: IsPending(p) ==> now < locked[p].end
      ensures Onward(old(now), old(nextExpiringBlock), now, nextExpiringBlock)
    {
      RenewRound(gaugeOk);
      renewed := Snapshot();
      handled, failed, row := AutoWithdraw(gaugeOk);
    }

    /** Time moves on, to the next block or to a later one. */
    method NewBlock(n: nat)
      requires Valid() && now < n
      modifies `now, `recorded
      ensures now == n && Valid()
      ensures recorded == old(recorded) + old(PowersNow(k, Snapshot()))
      ensures old(Guarded()) ==> Guarded()
      ensures Onward(old(now), old(nextExpiringBlock), now, nextExpiringBlock)
    {
      ghost var s := Snapshot();
      NewBlockInv(k, s, n);
      recorded := recorded + PowersNow(k, s);
      now := n;
    }

    /** A transfer that has nothing to do with the pallet. The pool account makes none. */
    method SendTokens(c: Currency, from: Account, to: Account, amount: nat) returns (r: Result<()>)
      requires Valid() && from != k.pool
      modifies `free
      ensures Valid()
      ensures r == if !old(CanPay(c, from, to, amount)) then Err(NotEnoughBalance)
                   else if !CanReceive(old(free), c, from, to, amount) then Err(Overflow) else Ok(())
      ensures r.Ok? ==>
        (amount <= Held(old(free), c, from) || from == to) && free == Sent(old(free), c, from, to, amount)
      ensures r.Err? ==> free == old(free)
      ensures old(CanCheckpoint()) ==> CanCheckpoint()
      ensures old(Guarded()) ==> Guarded()
      ensures Onward(old(now), old(nextExpiringBlock), now, nextExpiringBlock)
    {
      ghost var s := Snapshot();
      r := Transfer(c, from, to, amount);
      if r.Ok? {
        StillBackedFor(k, s, Snapshot(), c, from, to, amount);
        TransferInv(k, s, Snapshot(), c, from, to, amount);
      }
    }

    /** The limits for new locks and for automatic withdrawal. */
    method SetConfig(minMint: Option<nat>, minBlock: Option<nat>, maxPerBlock: Option<nat>)
      requires Valid()
      modifies `config
      ensures Valid()
      ensures config == Config(if minMint.Some? then minMint.value else old(config).minMint,
                               if minBlock.Some? then minBlock.value else old(config).minBlock,
                               if maxPerBlock.Some? then maxPerBlock.value else old(config).maxPerBlock)
      ensures old(CanCheckpoint()) ==> CanCheckpoint()
      ensures old(Guarded()) ==> Guarded()
      ensures Onward(old(now), old(nextExpiringBlock), now, nextExpiringBlock)
    {
      ghost var s := Snapshot();
      if minMint.Some? {
        config := config.(minMint := minMint.value);
      }
      if minBlock.Some? {
        config := config.(minBlock := minBlock.value);
      }
      if maxPerBlock.Some? {
        config := config.(maxPerBlock := maxPerBlock.value);
      }
      ConfigInv(k, s, Snapshot());
    }

    /** The pallet at genesis. */
    constructor (params: Params, start: nat, endowment: Holdings)
      requires params.Sane()
      ensures Valid() && CanCheckpoint() && Guarded() && k == params
      ensures Genesis(Snapshot()) && now == start && free == endowment && config == Config(0, 0, 0) && recorded == map[]
    {
      k := params;
      config, now, free := Config(0, 0, 0), start, endowment;
      supply, locked, userLocked, position := 0, map[], map[], 0;
      userPositions, positionOwner := map[], map[];
      epoch, pointHistory, slopeChanges := 0, map[], map[];
      userPointEpoch, userPointHistory := map[], map[];
      expiringPositions, nextExpiringBlock := map[], 0;
      incentive, rewards, paid := IncentiveConfig(map[], map[], 0, 0, 0, None, []), map[], map[];
      recorded := map[];
      new;
      GenesisInv(k, Snapshot());
    }
  }
}
