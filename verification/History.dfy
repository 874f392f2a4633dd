/** Checkpoint histories: the epoch a lookup at block t has to find, and why later checkpoints
    do not change the answer for blocks that have passed. */
module History {
  import opened Primitives
  import opened Curve
  import opened Voting

  type GlobalHistory = map<nat, Point>
  type UserHistory = map<(PositionId, nat), Point>

  /** Blocks of a history, by epoch. Epoch 0 stands before every checkpoint. */
  type Blocks = int -> nat

  function GlobalPoint(h: GlobalHistory, e: nat): Point {
    Get(h, e, NO_POINT)
  }

  function UserPoint(h: UserHistory, p: PositionId, e: nat): Point {
    Get(h, (p, e), NO_POINT)
  }

  function GlobalBlocks(h: GlobalHistory): Blocks {
    e => if 0 <= e then GlobalPoint(h, e).block else 0
  }

  function UserBlocks(h: UserHistory, p: PositionId): Blocks {
    e => if 0 <= e then UserPoint(h, p, e).block else 0
  }

  predicate InOrder(blocks: Blocks, i: int) {
    blocks(i - 1) <= blocks(i)
  }

  /** Blocks never decrease from one epoch to the next. */
  ghost predicate Ordered(blocks: Blocks, epoch: nat) {
    forall i :: 0 < i <= epoch ==> InOrder(blocks, i)
  }

  lemma {:induction false} OrderedPair(blocks: Blocks, epoch: nat, i: nat, j: nat)
    requires Ordered(blocks, epoch) && i <= j <= epoch
    ensures blocks(i) <= blocks(j)
    decreases j
  {
    if i < j {
      assert InOrder(blocks, j);
      OrderedPair(blocks, epoch, i, j - 1);
    }
  }

  lemma OrderedExtend(blocks: Blocks, blocks': Blocks, epoch: nat)
    requires Ordered(blocks, epoch) && blocks(epoch) <= blocks'(epoch + 1)
    requires forall i :: 0 <= i <= epoch ==> blocks'(i) == blocks(i)
    ensures Ordered(blocks', epoch + 1)
  {
    forall i | 0 < i <= epoch + 1
      ensures InOrder(blocks', i)
    {
      assert i <= epoch ==> InOrder(blocks, i);
    }
  }

  predicate SamePoint(h0: GlobalHistory, h: GlobalHistory, e: int) {
    0 <= e ==> GlobalPoint(h, e) == GlobalPoint(h0, e)
  }

  /** Points recorded up to epoch e are still there. */
  ghost predicate KeepsPoints(h0: GlobalHistory, e: nat, h: GlobalHistory) {
    forall i :: i <= e ==> SamePoint(h0, h, i)
  }

  /** `h` up to epoch e carries on the history `h0` up to epoch e0, in block order, with no point
      later than `limit`. */
  ghost predicate Continues(h0: GlobalHistory, e0: nat, h: GlobalHistory, e: nat, limit: nat) {
    && e0 <= e && 0 !in h && GlobalPoint(h, e).block <= limit
    && Ordered(GlobalBlocks(h), e) && KeepsPoints(h0, e0, h)
  }

  lemma ContinueWith(h0: GlobalHistory, e0: nat, h: GlobalHistory, e: nat, pt: Point)
    requires Continues(h0, e0, h, e, pt.block)
    ensures Continues(h0, e0, h[e + 1 := pt], e + 1, pt.block)
  {
    var h' := h[e + 1 := pt];
    OrderedExtend(GlobalBlocks(h), GlobalBlocks(h'), e);
    forall i | i <= e0
      ensures SamePoint(h0, h', i)
    {
      assert SamePoint(h0, h, i);
    }
  }

  lemma UserExtend(h: UserHistory, p: PositionId, epoch: nat, pt: Point)
    requires Ordered(UserBlocks(h, p), epoch) && UserPoint(h, p, epoch).block <= pt.block
    ensures Ordered(UserBlocks(h[(p, epoch + 1) := pt], p), epoch + 1)
  {
    OrderedExtend(UserBlocks(h, p), UserBlocks(h[(p, epoch + 1) := pt], p), epoch);
  }

  /** The greatest epoch up to `epoch` whose block is at most t, or 0 if there is none. */
  function EpochAt(blocks: Blocks, epoch: nat, t: nat): nat {
    if epoch == 0 || blocks(epoch) <= t then epoch else EpochAt(blocks, epoch - 1, t)
  }

  lemma {:induction false} EpochAtMeaning(blocks: Blocks, epoch: nat, t: nat)
    ensures var e := EpochAt(blocks, epoch, t);
            && e <= epoch && (e == 0 || blocks(e) <= t)
            && (forall i :: e < i <= epoch ==> t < blocks(i))
  {
    if epoch != 0 && blocks(epoch) > t {
      EpochAtMeaning(blocks, epoch - 1, t);
    }
  }

  /** In an ordered history the greatest epoch is where the order crosses t. */
  lemma EpochAtUnique(blocks: Blocks, epoch: nat, t: nat, e: nat)
    requires e <= epoch && (e == 0 || blocks(e) <= t)
    requires forall i :: e < i <= epoch ==> t < blocks(i)
    ensures EpochAt(blocks, epoch, t) == e
  {
    EpochAtMeaning(blocks, epoch, t);
  }

  /** New epochs later than t do not change what a lookup at t finds. */
  lemma EpochAtStable(blocks: Blocks, epoch: nat, blocks': Blocks, epoch': nat, t: nat)
    requires epoch <= epoch'
    requires forall i :: 0 <= i <= epoch ==> blocks'(i) == blocks(i)
    requires forall i :: epoch < i <= epoch' ==> t < blocks'(i)
    ensures EpochAt(blocks', epoch', t) == EpochAt(blocks, epoch, t)
  {
    EpochAtMeaning(blocks, epoch, t);
    EpochAtUnique(blocks', epoch', t, EpochAt(blocks, epoch, t));
  }

  /** The halving argument behind the 128 steps of the searches. */
  function Pow2(n: nat): pos {
    if n == 0 then 1 else 2 * Pow2(n - 1)
  }

  /** Steps of a bisection. */
  const STEPS: nat := 128

  /** So many steps tell all u128 epochs apart. */
  lemma AllEpochs()
    ensures Pow2(STEPS) == U128_MAX + 1
  {
    Pow2Twice(1, 2);
    Pow2Twice(2, 4);
    Pow2Twice(4, 16);
    Pow2Twice(8, 0x100);
    Pow2Twice(16, 0x1_0000);
    Pow2Twice(32, 0x1_0000_0000);
    Pow2Twice(64, 0x1_0000_0000_0000_0000);
  }

  lemma Pow2Twice(n: nat, x: nat)
    requires Pow2(n) == x
    ensures Pow2(n + n) == x * x
  {
    Pow2Sum(n, n);
  }

  lemma {:induction false} Pow2Sum(m: nat, n: nat)
    ensures Pow2(m + n) == Pow2(m) * Pow2(n)
  {
    if m != 0 {
      Pow2Sum(m - 1, n);
    }
  }

  /** The epoch that is looked for lies between min and max. */
  ghost predicate Brackets(blocks: Blocks, epoch: nat, t: nat, min: nat, max: nat) {
    (min == 0 || blocks(min) <= t) && forall i :: max < i <= epoch ==> t < blocks(i)
  }

  /** Looking at the middle halves the distance. */
  lemma BracketsMid(blocks: Blocks, epoch: nat, t: nat, min: nat, max: nat, mid: nat)
    requires Ordered(blocks, epoch) && min < max <= epoch && Brackets(blocks, epoch, t, min, max)
    requires mid == (min + max + 1) / 2
    ensures min < mid <= max
    ensures blocks(mid) <= t ==> Brackets(blocks, epoch, t, mid, max)
    ensures t < blocks(mid) ==> Brackets(blocks, epoch, t, min, mid - 1)
    ensures max - mid <= (max - min) / 2 && mid - 1 - min <= (max - min) / 2
  {
    if t < blocks(mid) {
      forall i | mid - 1 < i <= epoch
        ensures t < blocks(i)
      {
        OrderedPair(blocks, epoch, mid, i);
      }
    }
  }

  /** Voting power of a position now, as its last point and its lock state it. */
  function CurrentPower(w: nat, locked: Locks, epochs: map<PositionId, nat>, h: UserHistory, p: PositionId, t: nat): nat
  {
    var e := Get(epochs, p, 0);
    if t >= Get(locked, p, NO_LOCK).end || e == 0 then 0 else PointPower(w, UserPoint(h, p, e), t)
  }

  /** What is left of a running position at block t can be computed in i128. */
  predicate Readable(locked: Locks, epochs: map<PositionId, nat>, h: UserHistory, p: PositionId, t: nat) {
    var e := Get(epochs, p, 0);
    t >= Get(locked, p, NO_LOCK).end || e == 0 || Falls(UserPoint(h, p, e), t)
  }

  /** Voting power of a position at an earlier block, as its history states it. */
  function PastPower(w: nat, locked: Locks, epochs: map<PositionId, nat>, h: UserHistory, p: PositionId, t: nat): nat {
    if t >= Get(locked, p, NO_LOCK).end then 0
    else PointPower(w, UserPoint(h, p, EpochAt(UserBlocks(h, p), Get(epochs, p, 0), t)), t)
  }

  /** What the history of a position states for block t can be computed in i128. */
  predicate PastReadable(locked: Locks, epochs: map<PositionId, nat>, h: UserHistory, p: PositionId, t: nat) {
    t >= Get(locked, p, NO_LOCK).end || Falls(UserPoint(h, p, EpochAt(UserBlocks(h, p), Get(epochs, p, 0), t)), t)
  }

  /** At the end of a block the two agree. */
  lemma PastIsCurrent(w: nat, locked: Locks, epochs: map<PositionId, nat>, h: UserHistory, p: PositionId, t: nat)
    requires UserPoint(h, p, Get(epochs, p, 0)).block <= t
    requires (p, 0) !in h
    ensures PastPower(w, locked, epochs, h, p, t) == CurrentPower(w, locked, epochs, h, p, t)
    ensures Readable(locked, epochs, h, p, t) ==> PastReadable(locked, epochs, h, p, t)
  {
    if Get(epochs, p, 0) == 0 {
      assert w * 0 == 0;
    }
  }

  /** A checkpoint of the current block leaves the past alone: the new point is later, and
      a lock that had ended stays as it was while a running one only grows longer. */
  lemma PastPreserved(w: nat, locked: Locks, epochs: map<PositionId, nat>, h: UserHistory,
                      locked': Locks, epochs': map<PositionId, nat>, h': UserHistory, p: PositionId, t: nat)
    requires Get(epochs, p, 0) <= Get(epochs', p, 0)
    requires forall e :: 0 <= e <= Get(epochs, p, 0) ==> UserPoint(h', p, e) == UserPoint(h, p, e)
    requires forall e :: Get(epochs, p, 0) < e <= Get(epochs', p, 0) ==> t < UserPoint(h', p, e).block
    requires var o, l := Get(locked, p, NO_LOCK), Get(locked', p, NO_LOCK);
             l.end == o.end || (t < o.end && o.end <= l.end) || Get(epochs, p, 0) == 0
    requires (p, 0) !in h
    ensures PastPower(w, locked', epochs', h', p, t) == PastPower(w, locked, epochs, h, p, t)
    ensures PastReadable(locked, epochs, h, p, t) ==> PastReadable(locked', epochs', h', p, t)
  {
    EpochAtStable(UserBlocks(h, p), Get(epochs, p, 0), UserBlocks(h', p), Get(epochs', p, 0), t);
    EpochAtMeaning(UserBlocks(h, p), Get(epochs, p, 0), t);
    if Get(epochs, p, 0) == 0 {
      assert w * 0 == 0;
    }
  }

  /** Voting power over a list of positions. */
  function CurrentTotal(w: nat, locked: Locks, epochs: map<PositionId, nat>, h: UserHistory,
          ps: seq<PositionId>, t: nat): nat
  {
    if ps == [] then 0 else
      CurrentTotal(w, locked, epochs, h, ps[..|ps| - 1], t) + CurrentPower(w, locked, epochs, h, ps[|ps| - 1], t)
  }

  predicate AllReadable(ps: seq<PositionId>, locked: Locks, epochs: map<PositionId, nat>, h: UserHistory, t: nat) {
    forall p :: p in ps ==> Readable(locked, epochs, h, p, t)
  }

  lemma {:induction false} CurrentTotalGrows(w: nat, locked: Locks, epochs: map<PositionId, nat>, h: UserHistory,
                                             ps: seq<PositionId>, i: nat, t: nat)
    requires i <= |ps|
    ensures CurrentTotal(w, locked, epochs, h, ps[..i], t) <= CurrentTotal(w, locked, epochs, h, ps, t)
    decreases |ps|
  {
    if i < |ps| {
      CurrentTotalGrows(w, locked, epochs, h, ps[..|ps| - 1], i, t);
      assert ps[..|ps| - 1][..i] == ps[..i];
    } else {
      assert ps[..i] == ps;
    }
  }

  /** Voting power over a list of positions at an earlier block. */
  function PastTotal(w: nat, locked: Locks, epochs: map<PositionId, nat>, h: UserHistory, ps: seq<PositionId>,
          t: nat): nat
  {
    if ps == [] then 0 else
      PastTotal(w, locked, epochs, h, ps[..|ps| - 1], t) + PastPower(w, locked, epochs, h, ps[|ps| - 1], t)
  }

  predicate AllPastReadable(ps: seq<PositionId>, locked: Locks, epochs: map<PositionId, nat>, h: UserHistory, t: nat) {
    forall p :: p in ps ==> PastReadable(locked, epochs, h, p, t)
  }

  lemma {:induction false} PastTotalGrows(w: nat, locked: Locks, epochs: map<PositionId, nat>, h: UserHistory,
                                          ps: seq<PositionId>, i: nat, t: nat)
    requires i <= |ps|
    ensures PastTotal(w, locked, epochs, h, ps[..i], t) <= PastTotal(w, locked, epochs, h, ps, t)
    decreases |ps|
  {
    if i < |ps| {
      PastTotalGrows(w, locked, epochs, h, ps[..|ps| - 1], i, t);
      assert ps[..|ps| - 1][..i] == ps[..i];
    } else {
      assert ps[..i] == ps;
    }
  }
}
