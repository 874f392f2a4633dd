/** What one call that changes a single lock means for the position histories, the recorded past
    and the reward pool. */
module Calls {
  import opened Primitives
  import opened Sums
  import opened Weeks
  import opened Curve
  import opened Voting
  import opened History
  import opened LockLedger
  import opened Rewards
  import opened Solvency
  import opened Invariants

  type Owners = map<PositionId, Account>
  type Epochs = map<PositionId, nat>

  /** The history with a point for lock l added to position p. */
  function WithPoint(m: pos, epochs: Epochs, h: UserHistory, p: PositionId, l: LockedBalance, now: nat): UserHistory {
    h[(p, Get(epochs, p, 0) + 1) := LockPoint(m, l, now)]
  }

  function WithEpoch(epochs: Epochs, p: PositionId): Epochs {
    epochs[p := Get(epochs, p, 0) + 1]
  }

  // ---- Histories -----------------------------------------------------------------------

  /** A position is untouched by changes elsewhere. */
  lemma OtherPositionOk(k: Params, locked: Locks, owner: Owners, epochs: Epochs, h: UserHistory,
                        locked': Locks, owner': Owners, epochs': Epochs, h': UserHistory, now: nat, q: PositionId)
    requires PositionOk(k, locked, owner, epochs, h, now, q)
    requires (q in owner <==> q in owner') && (q in epochs <==> q in epochs') && (q in locked ==> q in locked')
    requires q in epochs ==> epochs'[q] == epochs[q]
    requires q in locked ==> locked'[q] == locked[q]
    requires forall e: nat :: ((q, e) in h <==> (q, e) in h') && UserPoint(h', q, e) == UserPoint(h, q, e)
    ensures PositionOk(k, locked', owner', epochs', h', now, q)
  {
    if q in epochs {
      forall i | 0 < i <= epochs[q]
        ensures InOrder(UserBlocks(h', q), i)
      {
        assert InOrder(UserBlocks(h, q), i);
      }
    }
  }

  lemma ChangedPositionOk(k: Params, locked: Locks, owner: Owners, epochs: Epochs, h: UserHistory,
                          now: nat, p: PositionId, l: LockedBalance)
    requires PositionOk(k, locked, owner, epochs, h, now, p) && p in owner
    requires now < l.end && OnWeek(k.week, l.end) && BiasOf(k.maxBlock, l, now) <= I128_MAX
    ensures PositionOk(k, locked[p := l], owner, WithEpoch(epochs, p), WithPoint(k.maxBlock, epochs, h, p, l, now),
                       now, p)
  {
    UserExtend(h, p, Get(epochs, p, 0), LockPoint(k.maxBlock, l, now));
  }

  lemma PointsAfterCheckpoint(k: Params, locked: Locks, owner: Owners, epochs: Epochs, h: UserHistory,
                              now: nat, p: PositionId, l: LockedBalance)
    requires PointsOk(k, locked, owner, epochs, h, now) && p in owner
    requires now < l.end && OnWeek(k.week, l.end) && BiasOf(k.maxBlock, l, now) <= I128_MAX
    ensures PointsOk(k, locked[p := l], owner, WithEpoch(epochs, p), WithPoint(k.maxBlock, epochs, h, p, l, now), now)
  {
    var locked', epochs', h' := locked[p := l], WithEpoch(epochs, p), WithPoint(k.maxBlock, epochs, h, p, l, now);
    forall q
      ensures PositionOk(k, locked', owner, epochs', h', now, q)
    {
      assert PositionOk(k, locked, owner, epochs, h, now, q);
      if q == p {
        ChangedPositionOk(k, locked, owner, epochs, h, now, p, l);
      } else {
        OtherPositionOk(k, locked, owner, epochs, h, locked', owner, epochs', h', now, q);
      }
    }
  }

  lemma PointsAfterRemoval(k: Params, locked: Locks, owner: Owners, epochs: Epochs, h: UserHistory, now: nat,
          p: PositionId)
    requires PointsOk(k, locked, owner, epochs, h, now)
    ensures PointsOk(k, locked[p := NO_LOCK], owner - {p}, epochs - {p},
                     WithPoint(k.maxBlock, epochs, h, p, NO_LOCK, now), now)
  {
    var locked', owner', epochs' := locked[p := NO_LOCK], owner - {p}, epochs - {p};
    var h' := WithPoint(k.maxBlock, epochs, h, p, NO_LOCK, now);
    forall q
      ensures PositionOk(k, locked', owner', epochs', h', now, q)
    {
      assert PositionOk(k, locked, owner, epochs, h, now, q);
      if q != p {
        OtherPositionOk(k, locked, owner, epochs, h, locked', owner', epochs', h', now, q);
      }
    }
  }

  lemma PointsAfterCreation(k: Params, locked: Locks, owner: Owners, epochs: Epochs, h: UserHistory,
                            now: nat, p: PositionId, who: Account)
    requires PointsOk(k, locked, owner, epochs, h, now) && p !in owner
    ensures PointsOk(k, locked[p := NO_LOCK], owner[p := who], epochs, h, now)
  {
    var locked', owner' := locked[p := NO_LOCK], owner[p := who];
    forall q
      ensures PositionOk(k, locked', owner', epochs, h, now, q)
    {
      assert PositionOk(k, locked, owner, epochs, h, now, q);
    }
  }

  // ---- The past ------------------------------------------------------------------------

  lemma OtherPast(w: nat, locked: Locks, epochs: Epochs, h: UserHistory,
                  locked': Locks, epochs': Epochs, h': UserHistory, q: PositionId, t: nat)
    requires Get(locked', q, NO_LOCK) == Get(locked, q, NO_LOCK) && Get(epochs', q, 0) == Get(epochs, q, 0)
    requires forall e: nat :: UserPoint(h', q, e) == UserPoint(h, q, e)
    ensures PastPower(w, locked', epochs', h', q, t) == PastPower(w, locked, epochs, h, q, t)
    ensures PastReadable(locked', epochs', h', q, t) <==> PastReadable(locked, epochs, h, q, t)
  {
    EpochAtStable(UserBlocks(h, q), Get(epochs, q, 0), UserBlocks(h', q), Get(epochs, q, 0), t);
  }

  /** Looking back, a position reads the same after its lock has been changed. */
  lemma PastAfterCheckpoint(k: Params, locked: Locks, owner: Owners, epochs: Epochs, h: UserHistory,
                            recorded: map<(PositionId, nat), nat>, now: nat, p: PositionId, l: LockedBalance)
    requires PastOk(k.voteWeight, locked, owner, epochs, h, recorded, now)
    requires PositionOk(k, locked, owner, epochs, h, now, p) && p in owner
    requires l != NO_LOCK && LockChange(locked[p], l, now, p !in epochs)
    ensures PastOk(k.voteWeight, locked[p := l], owner, WithEpoch(epochs, p),
                   WithPoint(k.maxBlock, epochs, h, p, l, now), recorded, now)
  {
    var w, locked', epochs', h' :=
      k.voteWeight, locked[p := l], WithEpoch(epochs, p), WithPoint(k.maxBlock, epochs, h, p, l, now);
    forall q, t: nat
      ensures RecordOk(w, locked', owner, epochs', h', recorded, now, q, t)
    {
      assert RecordOk(w, locked, owner, epochs, h, recorded, now, q, t);
      if t < now {
        if q == p {
          PastPreserved(w, locked, epochs, h, locked', epochs', h', p, t);
        } else {
          OtherPast(w, locked, epochs, h, locked', epochs', h', q, t);
        }
      }
    }
  }

  lemma PastAfterRemoval(k: Params, locked: Locks, owner: Owners, epochs: Epochs, h: UserHistory,
                         recorded: map<(PositionId, nat), nat>, now: nat, p: PositionId)
    requires PastOk(k.voteWeight, locked, owner, epochs, h, recorded, now)
    ensures PastOk(k.voteWeight, locked[p := NO_LOCK], owner - {p}, epochs - {p},
                   WithPoint(k.maxBlock, epochs, h, p, NO_LOCK, now), recorded, now)
  {
    var w, locked', owner', epochs' := k.voteWeight, locked[p := NO_LOCK], owner - {p}, epochs - {p};
    var h' := WithPoint(k.maxBlock, epochs, h, p, NO_LOCK, now);
    forall q, t: nat
      ensures RecordOk(w, locked', owner', epochs', h', recorded, now, q, t)
    {
      assert RecordOk(w, locked, owner, epochs, h, recorded, now, q, t);
      if q != p {
        OtherPast(w, locked, epochs, h, locked', epochs', h', q, t);
      }
    }
  }

  // ---- Rewards -------------------------------------------------------------------------

  /** A change of one position leaves the power of other accounts alone. */
  lemma OtherBalance(m: pos, w: nat, locked: Locks, owner: Owners, locked': Locks, owner': Owners,
                     p: PositionId, t: nat, u: Account)
    requires locked'.Keys == locked.Keys + {p}
    requires forall q :: q in locked && q != p ==> locked'[q] == locked[q] && OwnerOf(owner')(q) == OwnerOf(owner)(q)
    requires OwnerOf(owner)(p) != u || p !in locked || locked[p] == NO_LOCK
    requires OwnerOf(owner')(p) != u || locked'[p] == NO_LOCK
    ensures Balances(m, w, locked', owner', t)(u) == Balances(m, w, locked, owner, t)(u)
  {
    var f, f', own, own' := PowerTerm(m, w, locked, t), PowerTerm(m, w, locked', t), OwnerOf(owner), OwnerOf(owner');
    forall q | q in locked.Keys && q != p
      ensures own(q) == own'(q) && f(q) == f'(q)
    {
    }
    OwnerSumUpdate(locked.Keys, own, f, locked'.Keys, own', f', p, u);
  }

  /** With balances that fit the supply, a call's reward update and the change of its caller's
      power keep the pool solvent. */
  lemma UpdateThenChange(mult: pos, a: Accounts, bal: Power, bal': Power, users: set<Account>, pool: Currency -> nat,
                         who: Account, now: nat, total: nat, balance: nat)
    requires Solvent(mult, a, bal, users, pool) && Timely(a.conf, now)
    requires forall u :: u in users ==> 0 <= bal(u)
    requires Sum(users, bal) <= total && who in users && balance <= bal(who)
    requires forall u :: u in users && u != who ==> bal'(u) == bal(u)
    ensures var a' := Update(mult, a, Some(who), now, total, balance);
            Solvent(mult, a', bal', users, pool) && Timely(a'.conf, now)
  {
    UpdateSolvent(mult, a, bal, users, pool, Some(who), now, total, balance);
    var a' := Update(mult, a, Some(who), now, total, balance);
    assert Get(a'.paid, who, map[]) == a'.conf.rewardPerToken;
    PowerChangeSolvent(mult, a', bal, users, bal', users, pool);
  }

  /** The reward part of a call: total and balance are what the pallet computes in the middle of it. */
  lemma CallSolvent(k: Params, b: LockBook, b': LockBook, epochs: Epochs, h: UserHistory, now: nat,
                    a: Accounts, pool: Currency -> nat, p: PositionId, l: LockedBalance, total: nat, balance: nat)
    requires Sound(b, k.maxPositions) && PointsOk(k, b.locked, b.owner, epochs, h, now)
    requires p in b.owner && p in b.locked && LockChange(b.locked[p], l, now, p !in epochs)
    requires Solvent(k.multiplier, a, Balances(k.maxBlock, k.voteWeight, b.locked, b.owner, now), b.userPositions.Keys,
                     pool)
    requires Timely(a.conf, now)
    requires total == SupplyPower(k.voteWeight, b.supply, BiasAt(k.maxBlock, b.locked, now))
    requires balance == CurrentTotal(k.voteWeight, b.locked[p := l], epochs, h, PositionsOf(b, b.owner[p]), now)
    requires b'.locked == b.locked[p := l] && b'.userPositions.Keys == b.userPositions.Keys
    requires b'.owner == b.owner || (b'.owner == b.owner - {p} && l == NO_LOCK)
    ensures var a' := Update(k.multiplier, a, Some(b.owner[p]), now, total, balance);
      && Solvent(k.multiplier, a', Balances(k.maxBlock, k.voteWeight, b'.locked, b'.owner, now), b'.userPositions.Keys,
                 pool)
      && Timely(a'.conf, now)
  {
    var m, w, who, users := k.maxBlock, k.voteWeight, b.owner[p], b.userPositions.Keys;
    var bal, bal' := Balances(m, w, b.locked, b.owner, now), Balances(m, w, b'.locked, b'.owner, now);
    assert forall u :: u in users ==> 0 <= bal(u) by {
      AllNonNeg(m, w, b, now);
    }
    assert forall u :: u in users && u != who ==> bal'(u) == bal(u) by {
      AllOthers(m, w, b, b', p, l, now);
    }
    assert Sum(users, bal) <= total by {
      BalancesFit(k, b, now);
    }
    CallerBalance(k, b, epochs, h, now, p, l);
    assert OnItsList(b, p);
    UpdateThenChange(k.multiplier, a, bal, bal', users, pool, who, now, total, balance);
  }

  lemma AllNonNeg(m: pos, w: nat, b: LockBook, now: nat)
    ensures forall u :: u in b.userPositions.Keys ==> 0 <= Balances(m, w, b.locked, b.owner, now)(u)
  {
    forall u | u in b.userPositions.Keys
      ensures 0 <= Balances(m, w, b.locked, b.owner, now)(u)
    {
      BalancesNonNeg(m, w, b.locked, b.owner, now, u);
    }
  }

  lemma AllOthers(m: pos, w: nat, b: LockBook, b': LockBook, p: PositionId, l: LockedBalance, now: nat)
    requires p in b.owner && p in b.locked && b'.locked == b.locked[p := l]
    requires b'.owner == b.owner || (b'.owner == b.owner - {p} && l == NO_LOCK)
    ensures forall u :: u in b.userPositions.Keys && u != b.owner[p] ==>
      Balances(m, w, b'.locked, b'.owner, now)(u) == Balances(m, w, b.locked, b.owner, now)(u)
  {
    forall u | u in b.userPositions.Keys && u != b.owner[p]
      ensures Balances(m, w, b'.locked, b'.owner, now)(u) == Balances(m, w, b.locked, b.owner, now)(u)
    {
      OtherBalance(m, w, b.locked, b.owner, b'.locked, b'.owner, p, now, u);
    }
  }

  /** All accounts' powers together fit into the power of the summary. */
  lemma BalancesFit(k: Params, b: LockBook, now: nat)
    requires Sound(b, k.maxPositions)
    ensures Sum(b.userPositions.Keys, Balances(k.maxBlock, k.voteWeight, b.locked, b.owner, now))
         <= SupplyPower(k.voteWeight, b.supply, BiasAt(k.maxBlock, b.locked, now))
  {
    forall p | p in b.locked
      ensures (p in b.owner && b.owner[p] in b.userPositions.Keys) || b.locked[p] == NO_LOCK
    {
      assert IdOk(b, p) && OnItsList(b, p);
    }
    BalancesWithinSupply(k.maxBlock, k.voteWeight, b.locked, b.owner, b.userPositions.Keys, now);
  }

  /** The balance a call credits is at most the caller's power before it. */
  lemma CallerBalance(k: Params, b: LockBook, epochs: Epochs, h: UserHistory, now: nat, p: PositionId, l: LockedBalance)
    requires Sound(b, k.maxPositions) && PointsOk(k, b.locked, b.owner, epochs, h, now)
    requires p in b.owner && p in b.locked && LockChange(b.locked[p], l, now, p !in epochs)
    ensures CurrentTotal(k.voteWeight, b.locked[p := l], epochs, h, PositionsOf(b, b.owner[p]), now)
         <= Balances(k.maxBlock, k.voteWeight, b.locked, b.owner, now)(b.owner[p])
  {
    var f, who := PowerTerm(k.maxBlock, k.voteWeight, b.locked, now), b.owner[p];
    assert OnItsList(b, p) && ListOk(b, k.maxPositions, who);
    MidCallTotal(k, b.locked, b.owner, epochs, h, now, p, l, PositionsOf(b, who), f);
    forall q | q in b.locked && q !in b.owner
      ensures f(q) == 0
    {
      assert IdOk(b, q);
    }
    OwnPositions(b, who, f, k.maxPositions);
  }

  /** An account's balance is what its positions are worth. */
  lemma BalanceIsPower(k: Params, b: LockBook, epochs: Epochs, h: UserHistory, now: nat, who: Account)
    requires Sound(b, k.maxPositions) && PointsOk(k, b.locked, b.owner, epochs, h, now)
    ensures CurrentTotal(k.voteWeight, b.locked, epochs, h, PositionsOf(b, who), now)
         == Balances(k.maxBlock, k.voteWeight, b.locked, b.owner, now)(who)
  {
    var f := PowerTerm(k.maxBlock, k.voteWeight, b.locked, now);
    assert ListOk(b, k.maxPositions, who);
    CurrentTotalIsPower(k, b.locked, b.owner, epochs, h, now, PositionsOf(b, who), f);
    forall q | q in b.locked && q !in b.owner
      ensures f(q) == 0
    {
      assert IdOk(b, q);
    }
    OwnPositions(b, who, f, k.maxPositions);
  }

  /** A pool that only gains stays solvent. */
  lemma PoolGrows(mult: pos, a: Accounts, bal: Power, users: set<Account>,
          pool: Currency -> nat, pool': Currency -> nat)
    requires Solvent(mult, a, bal, users, pool)
    requires forall c :: pool(c) <= pool'(c)
    ensures Solvent(mult, a, bal, users, pool')
  {
    forall c
      ensures Owed(mult, a, bal, users, c) <= mult * pool'(c)
    {
      assert Owed(mult, a, bal, users, c) <= mult * pool(c);
      MulMono(pool(c), pool'(c), mult);
    }
  }
}
