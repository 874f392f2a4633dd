/** The vote-escrow curve. A lock of `amount` until `end` weighs `slope * (end - t)` at block t,
    with `slope = amount / maxBlock`. The definitions here are the plain sums over all locks
    that the pallet's summary has to agree with. */
module Curve {
  import opened Primitives
  import opened Sums
  import opened Weeks

  datatype LockedBalance = LockedBalance(amount: nat, end: nat)
  datatype Point = Point(bias: int, slope: int, block: nat, amount: nat)
  type Locks = map<PositionId, LockedBalance>

  const NO_LOCK := LockedBalance(0, 0)
  const NO_POINT := Point(0, 0, 0, 0)

  function Slope(m: pos, l: LockedBalance): nat {
    l.amount / m
  }

  function Left(l: LockedBalance, t: nat): nat {
    if l.end > t then l.end - t else 0
  }

  function SlopeOfAt(m: pos, l: LockedBalance, t: nat): nat {
    if l.end > t then Slope(m, l) else 0
  }

  function BiasOf(m: pos, l: LockedBalance, t: nat): int {
    Slope(m, l) * Left(l, t)
  }

  function EndingOf(m: pos, l: LockedBalance, t: nat): nat {
    if l.end == t then Slope(m, l) else 0
  }

  // What one position contributes to each sum.
  function SlopeTerm(m: pos, locks: Locks, t: nat): PositionId -> int {
    p => if p in locks then SlopeOfAt(m, locks[p], t) else 0
  }

  function BiasTerm(m: pos, locks: Locks, t: nat): PositionId -> int {
    p => if p in locks then BiasOf(m, locks[p], t) else 0
  }

  function EndTerm(m: pos, locks: Locks, t: nat): PositionId -> int {
    p => if p in locks then EndingOf(m, locks[p], t) else 0
  }

  function AmountTerm(locks: Locks): PositionId -> int {
    p => if p in locks then locks[p].amount else 0
  }

  /** Total slope of the locks that outlive block t. */
  ghost function SlopeAfter(m: pos, locks: Locks, t: nat): int {
    Sum(locks.Keys, SlopeTerm(m, locks, t))
  }

  /** Total weight of all locks at block t. */
  ghost function BiasAt(m: pos, locks: Locks, t: nat): int {
    Sum(locks.Keys, BiasTerm(m, locks, t))
  }

  /** Total slope of the locks that end exactly at block t. */
  ghost function EndingAt(m: pos, locks: Locks, t: nat): int {
    Sum(locks.Keys, EndTerm(m, locks, t))
  }

  ghost function TotalAmount(locks: Locks): int {
    Sum(locks.Keys, AmountTerm(locks))
  }

  /** Ends that still lie ahead fall on week boundaries. */
  ghost predicate Aligned(week: pos, locks: Locks, b: nat) {
    forall p :: p in locks && locks[p].end > b ==> OnWeek(week, locks[p].end)
  }

  /** The weight of a lock, without the slope: its amount times the blocks left, over the longest lock, and less than
      the blocks left below that. */
  lemma BiasBounds(m: pos, l: LockedBalance, t: nat)
    ensures if t < l.end
      then m * BiasOf(m, l, t) <= l.amount * (l.end - t) < m * BiasOf(m, l, t) + m * (l.end - t)
      else BiasOf(m, l, t) == 0
  {
    if t < l.end {
      var left := l.end - t;
      MulDivBound(l.amount, m);
      MulMono(m * (l.amount / m), l.amount, left);
      MulMono(l.amount + 1, m * (l.amount / m) + m, left);
      Distribute(left, m * (l.amount / m), m);
      Distribute(left, l.amount, 1);
      assert m * (l.amount / m * left) == left * (m * (l.amount / m));
    }
  }

  /** The amount of each running lock times the blocks it has left. */
  function LockedTime(locks: Locks, t: nat): PositionId -> int {
    p => if p in locks && t < locks[p].end then locks[p].amount * (locks[p].end - t) else 0
  }

  /** The blocks each running lock has left. */
  function TimeLeft(locks: Locks, t: nat): PositionId -> int {
    p => if p in locks && t < locks[p].end then locks[p].end - t else 0
  }

  /** The same for the total weight. */
  lemma TotalBiasBounds(m: pos, locks: Locks, t: nat)
    ensures 0 <= Sum(locks.Keys, LockedTime(locks, t)) && 0 <= Sum(locks.Keys, TimeLeft(locks, t))
    ensures m * BiasAt(m, locks, t) <= Sum(locks.Keys, LockedTime(locks, t))
         <= m * BiasAt(m, locks, t) + m * Sum(locks.Keys, TimeLeft(locks, t))
  {
    var zero := (p: PositionId) => 0;
    var exact, left, bias := LockedTime(locks, t), TimeLeft(locks, t), BiasTerm(m, locks, t);
    var low := (p: PositionId) => m * bias(p);
    var high := (p: PositionId) => low(p) + m * left(p);
    forall p | p in locks.Keys
      ensures 0 <= exact(p) && 0 <= left(p) && low(p) <= exact(p) <= high(p)
    {
      BiasBounds(m, locks[p], t);
      MulMono(0, left(p), locks[p].amount);
    }
    SumZero(locks.Keys, zero);
    SumLinear(locks.Keys, low, zero, bias, m);
    SumLinear(locks.Keys, high, low, left, m);
    SumNonNeg(locks.Keys, exact);
    SumNonNeg(locks.Keys, left);
    SumLe(locks.Keys, low, exact);
    SumLe(locks.Keys, exact, high);
  }

  lemma SlopeNonNeg(m: pos, locks: Locks, t: nat)
    ensures 0 <= SlopeAfter(m, locks, t) && 0 <= BiasAt(m, locks, t)
  {
    var f, g := SlopeTerm(m, locks, t), BiasTerm(m, locks, t);
    forall p | p in locks.Keys
      ensures 0 <= f(p) && 0 <= g(p)
    {
      MulMono(0, Left(locks[p], t), Slope(m, locks[p]));
    }
    SumNonNeg(locks.Keys, f);
    SumNonNeg(locks.Keys, g);
  }

  /** Every running lock has at least one block left, so the slope is below the weight. */
  lemma SlopeBelowBias(m: pos, locks: Locks, t: nat)
    ensures SlopeAfter(m, locks, t) <= BiasAt(m, locks, t)
  {
    var f, g := SlopeTerm(m, locks, t), BiasTerm(m, locks, t);
    forall p | p in locks.Keys
      ensures f(p) <= g(p)
    {
      if locks[p].end > t {
        MulMono(1, Left(locks[p], t), Slope(m, locks[p]));
      }
    }
    SumLe(locks.Keys, f, g);
  }

  lemma AmountNonNeg(locks: Locks)
    ensures 0 <= TotalAmount(locks)
  {
    var f := AmountTerm(locks);
    forall p | p in locks.Keys
      ensures 0 <= f(p)
    {
    }
    SumNonNeg(locks.Keys, f);
  }

  lemma DecayTerm(m: pos, week: pos, l: LockedBalance, t: nat, u: nat)
    requires (l.end > t ==> OnWeek(week, l.end)) && t <= u <= NextWeek(week, t)
    ensures Slope(m, l) * Left(l, u)
         == Slope(m, l) * Left(l, t) + (t - u) * (if l.end > t then Slope(m, l) else 0)
  {
    if l.end > t {
      AlignedEnd(week, l.end, t);
      assert Left(l, u) == Left(l, t) + (t - u);
      Distribute(Slope(m, l), Left(l, t), t - u);
    }
  }

  /** Within a week the curve is a straight line. */
  lemma Decay(m: pos, week: pos, locks: Locks, t: nat, u: nat)
    requires Aligned(week, locks, t) && t <= u <= NextWeek(week, t)
    ensures BiasAt(m, locks, u) == BiasAt(m, locks, t) + (t - u) * SlopeAfter(m, locks, t)
  {
    var c := t - u;
    forall p | p in locks
      ensures BiasTerm(m, locks, u)(p) == BiasTerm(m, locks, t)(p) + c * SlopeTerm(m, locks, t)(p)
    {
      DecayTerm(m, week, locks[p], t, u);
    }
    SumLinear(locks.Keys, BiasTerm(m, locks, u), BiasTerm(m, locks, t), SlopeTerm(m, locks, t), c);
  }

  /** Strictly inside a week no lock ends, so the slope stays. */
  lemma SlopeInside(m: pos, week: pos, locks: Locks, t: nat, u: nat)
    requires Aligned(week, locks, t) && t <= u < NextWeek(week, t)
    ensures SlopeAfter(m, locks, u) == SlopeAfter(m, locks, t)
  {
    forall p | p in locks
      ensures SlopeTerm(m, locks, u)(p) == SlopeTerm(m, locks, t)(p)
    {
      if locks[p].end > t {
        AlignedEnd(week, locks[p].end, t);
      }
    }
    SumSame(locks.Keys, SlopeTerm(m, locks, u), SlopeTerm(m, locks, t));
  }

  /** At the week boundary the slope loses the locks that end there. */
  lemma SlopeAtBoundary(m: pos, week: pos, locks: Locks, t: nat)
    requires Aligned(week, locks, t)
    ensures SlopeAfter(m, locks, NextWeek(week, t))
         == SlopeAfter(m, locks, t) - EndingAt(m, locks, NextWeek(week, t))
  {
    var u := NextWeek(week, t);
    WeekFloorBounds(week, t);
    forall p | p in locks
      ensures SlopeTerm(m, locks, u)(p) == SlopeTerm(m, locks, t)(p) + -1 * EndTerm(m, locks, u)(p)
    {
      if locks[p].end > t {
        AlignedEnd(week, locks[p].end, t);
      }
    }
    SumLinear(locks.Keys, SlopeTerm(m, locks, u), SlopeTerm(m, locks, t), EndTerm(m, locks, u), -1);
  }

  /** The total weight never grows by itself. */
  lemma BiasFalls(m: pos, locks: Locks, t: nat, u: nat)
    requires t <= u
    ensures BiasAt(m, locks, u) <= BiasAt(m, locks, t)
  {
    forall p | p in locks
      ensures BiasTerm(m, locks, u)(p) <= BiasTerm(m, locks, t)(p)
    {
      MulMono(Left(locks[p], u), Left(locks[p], t), Slope(m, locks[p]));
    }
    SumLe(locks.Keys, BiasTerm(m, locks, u), BiasTerm(m, locks, t));
  }

  /** One lock is within each of the sums. */
  lemma LockWithin(m: pos, locks: Locks, p: PositionId, t: nat)
    requires p in locks
    ensures SlopeOfAt(m, locks[p], t) <= SlopeAfter(m, locks, t) && BiasOf(m, locks[p], t) <= BiasAt(m, locks, t)
    ensures EndingOf(m, locks[p], t) <= EndingAt(m, locks, t)
  {
    var f, g, h := SlopeTerm(m, locks, t), BiasTerm(m, locks, t), EndTerm(m, locks, t);
    forall q | q in locks.Keys
      ensures 0 <= f(q) && 0 <= g(q) && 0 <= h(q)
    {
      MulMono(0, Left(locks[q], t), Slope(m, locks[q]));
    }
    SumTerm(locks.Keys, f, p);
    SumTerm(locks.Keys, g, p);
    SumTerm(locks.Keys, h, p);
  }

  /** What ends at a later block has its slope in the total now. */
  lemma EndingWithinSlope(m: pos, locks: Locks, now: nat, t: nat)
    requires now < t
    ensures EndingAt(m, locks, t) <= SlopeAfter(m, locks, now)
  {
    forall p | p in locks
      ensures EndTerm(m, locks, t)(p) <= SlopeTerm(m, locks, now)(p)
    {
    }
    SumLe(locks.Keys, EndTerm(m, locks, t), SlopeTerm(m, locks, now));
  }

  /** Once every lock has ended nothing is left of the curve. */
  lemma AllEnded(m: pos, locks: Locks, t: nat)
    requires forall p :: p in locks ==> locks[p].end <= t || Slope(m, locks[p]) == 0
    ensures SlopeAfter(m, locks, t) == 0 && BiasAt(m, locks, t) == 0
  {
    var f, g := SlopeTerm(m, locks, t), BiasTerm(m, locks, t);
    forall p | p in locks.Keys
      ensures f(p) == 0 && g(p) == 0
    {
    }
    SumZero(locks.Keys, f);
    SumZero(locks.Keys, g);
  }

  // Replacing one lock moves each sum by that lock alone.

  lemma ReplaceSlope(m: pos, locks: Locks, p: PositionId, l: LockedBalance, t: nat)
    ensures SlopeAfter(m, locks[p := l], t)
         == SlopeAfter(m, locks, t) - SlopeOfAt(m, Get(locks, p, NO_LOCK), t) + SlopeOfAt(m, l, t)
  {
    SumUpdate(locks.Keys, SlopeTerm(m, locks, t), locks[p := l].Keys, SlopeTerm(m, locks[p := l], t), p);
  }

  lemma ReplaceBias(m: pos, locks: Locks, p: PositionId, l: LockedBalance, t: nat)
    ensures BiasAt(m, locks[p := l], t)
         == BiasAt(m, locks, t) - BiasOf(m, Get(locks, p, NO_LOCK), t) + BiasOf(m, l, t)
  {
    SumUpdate(locks.Keys, BiasTerm(m, locks, t), locks[p := l].Keys, BiasTerm(m, locks[p := l], t), p);
  }

  lemma ReplaceEnding(m: pos, locks: Locks, p: PositionId, l: LockedBalance, t: nat)
    ensures EndingAt(m, locks[p := l], t)
         == EndingAt(m, locks, t) - EndingOf(m, Get(locks, p, NO_LOCK), t) + EndingOf(m, l, t)
  {
    SumUpdate(locks.Keys, EndTerm(m, locks, t), locks[p := l].Keys, EndTerm(m, locks[p := l], t), p);
  }

  lemma ReplaceAmount(locks: Locks, p: PositionId, l: LockedBalance)
    ensures TotalAmount(locks[p := l]) == TotalAmount(locks) - Get(locks, p, NO_LOCK).amount + l.amount
  {
    SumUpdate(locks.Keys, AmountTerm(locks), locks[p := l].Keys, AmountTerm(locks[p := l]), p);
  }
}
