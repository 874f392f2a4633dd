/** Configuration of the bbBNC pallet and the parts of its invariant that are about plain values. */
module Invariants {
  import opened Primitives
  import opened Sums
  import opened Weeks
  import opened Curve
  import opened Lines
  import opened Voting
  import opened History
  import opened LockLedger

  datatype Params = Params(
    week: pos,
    maxBlock: pos,
    multiplier: pos,
    voteWeight: nat,
    oneYear: nat,
    fiveYears: pos,
    maxPositions: nat,
    token: Currency,
    pool: Account,
    buyBack: Account)
  {
    /** The longest lock, rounded up to a week, fits into the 255 steps of the week loops. */
    predicate Sane() {
      2 <= maxBlock && Span() <= 254 * week && pool != buyBack
    }

    /** How far ahead of its last checkpoint a lock can end. */
    function Span(): nat {
      maxBlock + week
    }
  }

  ghost predicate EndsWithin(locked: Locks, limit: nat) {
    forall p :: p in locked ==> locked[p].end <= limit
  }

  /** The last global point and the slope changes stand for the line, and the history leading up
      to that point is in block order. */
  ghost predicate Summarised(k: Params, c: Line, epoch: nat, h: GlobalHistory, changes: map<nat, int>, now: nat) {
    var pt := GlobalPoint(h, epoch);
    && Tracks(k.week, c, pt, changes)
    && pt.block <= now && pt.bias <= I128_MAX
    && Continues(h, 0, h, epoch, pt.block)
    && (epoch == 0 ==> EndedFrom(c, 0))
  }

  /** The locks fit the summary: ends ahead are week boundaries within reach of the week loops. */
  ghost predicate LocksFit(k: Params, locked: Locks, b: nat) {
    Aligned(k.week, locked, b) && EndsWithin(locked, b + k.Span())
  }

  /** The week loop can start: from the last point, or from an empty one at the current block. */
  lemma StartReady(k: Params, c: Line, epoch: nat, h: GlobalHistory, changes: map<nat, int>, now: nat, start: Point)
    requires Summarised(k, c, epoch, h, changes, now)
    requires start == if epoch > 0 then GlobalPoint(h, epoch) else Point(0, 0, now, start.amount)
    ensures Weekly(k.week, c, start.block) && OnLine(c, start) && start.block <= now
    ensures forall t: nat :: t > start.block ==> ChangeRight(c, changes, t)
    ensures Continues(h, epoch, h, epoch, start.block)
    ensures Reaches(k, epoch, h, now) <==> now <= WeekFloor(k.week, start.block) + 255 * k.week
  {
    WeekFloorBounds(k.week, start.block);
    if epoch == 0 {
      assert Ended(c, now);
    } else {
      assert Steps(k.week, c, start.block, start.block);
    }
  }

  /** A point made exact for the old line and corrected for the lock that changes, put at the end
      of the history, makes the summary stand for the new line. */
  lemma CheckpointDone(k: Params, c: Line, c': Line, o: LockedBalance, l: LockedBalance,
                       h0: GlobalHistory, e0: nat, changes: map<nat, int>, now: nat, before: Point,
                       h1: GlobalHistory, e1: nat, last: Point, changes': map<nat, int>)
    requires Summarised(k, c, e0, h0, changes, now) && Replaced(k.maxBlock, c, c', o, l)
    requires Weekly(k.week, c', now)
    requires Exact(c, before) && before.block == now && e0 < e1
    requires Continues(h0, e0, h1, e1 - 1, now)
    requires last.slope == before.slope + SlopeOfAt(k.maxBlock, l, now) - SlopeOfAt(k.maxBlock, o, now)
    requires last.bias == before.bias + BiasOf(k.maxBlock, l, now) - BiasOf(k.maxBlock, o, now) <= I128_MAX
    requires last.block == now
    requires forall t: nat :: t > now ==> ChangedBy(k.maxBlock, changes, changes', o, l, t)
    ensures Summarised(k, c', e1, h1[e1 := last], changes', now)
    ensures KeepsPoints(h0, e0, h1[e1 := last])
  {
    ReplaceTracks(k.maxBlock, k.week, c, c', o, l, before, changes, changes', GlobalPoint(h0, e0).block, last);
    ContinueWith(h0, e0, h1, e1 - 1, last);
  }

  /** A checkpoint now still reaches the current block in its 255 weekly steps. */
  predicate Reaches(k: Params, epoch: nat, h: GlobalHistory, now: nat) {
    epoch == 0 || now <= WeekFloor(k.week, GlobalPoint(h, epoch).block) + 255 * k.week
  }

  /** An owned position is either unused, holding nothing yet, or has a history in block order
      that ends with a point written for its present lock. */
  ghost predicate PositionOk(k: Params, locked: Locks, owner: map<PositionId, Account>,
                             epochs: map<PositionId, nat>, h: UserHistory, now: nat, p: PositionId)
  {
    && (p, 0) !in h
    && (p !in owner ==> p !in epochs)
    && (p in owner ==> p in locked && if p !in epochs then locked[p] == NO_LOCK else
          var pt := UserPoint(h, p, epochs[p]);
          && 0 < epochs[p] && Ordered(UserBlocks(h, p), epochs[p])
          && pt.block <= now && pt.block < locked[p].end && pt.bias <= I128_MAX && OnWeek(k.week, locked[p].end)
          && pt == LockPoint(k.maxBlock, locked[p], pt.block))
  }

  ghost predicate PointsOk(k: Params, locked: Locks, owner: map<PositionId, Account>,
                           epochs: map<PositionId, nat>, h: UserHistory, now: nat)
  {
    forall p :: PositionOk(k, locked, owner, epochs, h, now, p)
  }

  /** What an owned position is worth now can be computed from its last point. */
  lemma CurrentReadable(k: Params, locked: Locks, owner: map<PositionId, Account>,
                        epochs: map<PositionId, nat>, h: UserHistory, now: nat, p: PositionId)
    requires PositionOk(k, locked, owner, epochs, h, now, p)
    ensures Readable(locked, epochs, h, p, now)
  {
    if p in epochs && now < Get(locked, p, NO_LOCK).end {
      PointFalls(k.maxBlock, locked[p], UserPoint(h, p, epochs[p]).block, now);
    }
  }

  /** A recorded end-of-block power is still what a lookup in the past returns. */
  predicate RecordOk(w: nat, locked: Locks, owner: map<PositionId, Account>, epochs: map<PositionId, nat>,
                     h: UserHistory, recorded: map<(PositionId, nat), nat>, now: nat, p: PositionId, t: nat)
  {
    (p, t) in recorded ==>
      t < now && (p in owner ==>
        recorded[(p, t)] == PastPower(w, locked, epochs, h, p, t) && PastReadable(locked, epochs, h, p, t))
  }

  ghost predicate PastOk(w: nat, locked: Locks, owner: map<PositionId, Account>, epochs: map<PositionId, nat>,
                         h: UserHistory, recorded: map<(PositionId, nat), nat>, now: nat)
  {
    forall p, t: nat :: RecordOk(w, locked, owner, epochs, h, recorded, now, p, t)
  }

  /** At its owner's disposal a position counts for what its lock is worth. */
  lemma CurrentIsPower(k: Params, locked: Locks, owner: map<PositionId, Account>,
                       epochs: map<PositionId, nat>, h: UserHistory, now: nat, p: PositionId)
    requires PositionOk(k, locked, owner, epochs, h, now, p) && p in owner
    ensures CurrentPower(k.voteWeight, locked, epochs, h, p, now) == Power(k.maxBlock, k.voteWeight, locked[p], now)
  {
    if p in epochs && now < locked[p].end {
      PointMatchesLock(k.maxBlock, k.voteWeight, locked[p], UserPoint(h, p, epochs[p]).block, now);
    }
  }

  /** How a lock may change in one call: an unused one is filled, a running one is extended or topped
      up, any one is emptied. */
  predicate LockChange(o: LockedBalance, l: LockedBalance, now: nat, unused: bool) {
    || l == NO_LOCK
    || (now < l.end && (unused || (now < o.end <= l.end)))
  }

  /** While a call is under way, with the lock already changed but its point not yet written,
      the position counts for at most what it was worth before. */
  lemma MidCallPower(k: Params, locked: Locks, owner: map<PositionId, Account>, epochs: map<PositionId, nat>,
                     h: UserHistory, now: nat, p: PositionId, l: LockedBalance, q: PositionId)
    requires PositionOk(k, locked, owner, epochs, h, now, q) && q in owner
    requires p == q ==> LockChange(locked[q], l, now, q !in epochs)
    ensures CurrentPower(k.voteWeight, locked[p := l], epochs, h, q, now)
      <= Power(k.maxBlock, k.voteWeight, locked[q], now)
  {
    CurrentIsPower(k, locked, owner, epochs, h, now, q);
  }

  function CurrentTerm(w: nat, locked: Locks, epochs: map<PositionId, nat>, h: UserHistory, t: nat): PositionId -> int {
    p => CurrentPower(w, locked, epochs, h, p, t)
  }

  lemma LastMember(ps: seq<PositionId>)
    requires Distinct(ps) && ps != []
    ensures var q, rest := ps[|ps| - 1], ps[..|ps| - 1];
      Distinct(rest) && q in (set p | p in ps) && (set p | p in ps) - {q} == set p | p in rest
  {
    var q, rest := ps[|ps| - 1], ps[..|ps| - 1];
    assert ps == rest + [q];
  }

  /** Adding up along a list without duplicates is summing over its members. */
  lemma {:induction false} CurrentTotalIsSum(w: nat, locked: Locks, epochs: map<PositionId, nat>, h: UserHistory,
                                             ps: seq<PositionId>, t: nat)
    requires Distinct(ps)
    ensures CurrentTotal(w, locked, epochs, h, ps, t) == Sum((set p | p in ps), CurrentTerm(w, locked, epochs, h, t))
  {
    if ps != [] {
      var q, rest := ps[|ps| - 1], ps[..|ps| - 1];
      LastMember(ps);
      CurrentTotalIsSum(w, locked, epochs, h, rest, t);
      SumRemove((set p | p in ps), CurrentTerm(w, locked, epochs, h, t), q);
    }
  }

  lemma MidCallTotal(k: Params, locked: Locks, owner: map<PositionId, Account>, epochs: map<PositionId, nat>,
                     h: UserHistory, now: nat, p: PositionId, l: LockedBalance, ps: seq<PositionId>,
                     f: PositionId -> int)
    requires PointsOk(k, locked, owner, epochs, h, now) && Distinct(ps)
    requires forall q :: q in ps ==> q in owner
    requires p in locked && LockChange(locked[p], l, now, p !in epochs)
    requires f == PowerTerm(k.maxBlock, k.voteWeight, locked, now)
    ensures CurrentTotal(k.voteWeight, locked[p := l], epochs, h, ps, now) <= Sum((set q | q in ps), f)
  {
    var g := CurrentTerm(k.voteWeight, locked[p := l], epochs, h, now);
    CurrentTotalIsSum(k.voteWeight, locked[p := l], epochs, h, ps, now);
    forall q | q in ps
      ensures g(q) <= f(q)
    {
      assert PositionOk(k, locked, owner, epochs, h, now, q);
      MidCallPower(k, locked, owner, epochs, h, now, p, l, q);
    }
    SumLe((set q | q in ps), g, f);
  }

  /** Between calls the total the pallet computes is the sum of what the positions are worth. */
  lemma CurrentTotalIsPower(k: Params, locked: Locks, owner: map<PositionId, Account>, epochs: map<PositionId, nat>,
                            h: UserHistory, now: nat, ps: seq<PositionId>, f: PositionId -> int)
    requires PointsOk(k, locked, owner, epochs, h, now) && Distinct(ps)
    requires forall q :: q in ps ==> q in owner
    requires f == PowerTerm(k.maxBlock, k.voteWeight, locked, now)
    ensures CurrentTotal(k.voteWeight, locked, epochs, h, ps, now) == Sum((set q | q in ps), f)
  {
    var g := CurrentTerm(k.voteWeight, locked, epochs, h, now);
    CurrentTotalIsSum(k.voteWeight, locked, epochs, h, ps, now);
    forall q | q in ps
      ensures g(q) == f(q)
    {
      assert PositionOk(k, locked, owner, epochs, h, now, q);
      CurrentIsPower(k, locked, owner, epochs, h, now, q);
    }
    SumSame((set q | q in ps), g, f);
  }
}
