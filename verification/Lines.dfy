/** The pallet summarises all locks by one point and a map of slope changes. What makes that work
    is only that the total is a line that falls straight within each week; the week loops are
    about any such line. */
module Lines {
  import opened Primitives
  import opened Weeks
  import opened Curve

  /** Slope and weight at each block, and the slope that disappears there. */
  datatype Line = Line(slope: nat -> int, bias: nat -> int, ending: nat -> int)

  /** From t to u, at most to the next week boundary, the line falls straight and stays above zero;
      its slope changes only on the boundary. */
  ghost predicate Steps(week: pos, c: Line, t: nat, u: nat) {
    t <= u <= NextWeek(week, t) ==>
      var fall := c.slope(t) * (u - t);
      && 0 <= fall && 0 <= c.slope(t) <= c.bias(t)
      && c.bias(u) == c.bias(t) - fall
      && 0 <= c.slope(u) <= c.bias(u)
      && c.slope(u) == c.slope(t) - (if u == NextWeek(week, t) then c.ending(u) else 0)
  }

  ghost predicate Weekly(week: pos, c: Line, b: nat) {
    forall t: nat, u: nat :: b <= t ==> Steps(week, c, t, u)
  }

  predicate Ended(c: Line, t: nat) {
    c.slope(t) == 0 && c.bias(t) == 0
  }

  ghost predicate EndedFrom(c: Line, limit: nat) {
    forall t: nat :: limit <= t ==> Ended(c, t)
  }

  predicate ChangeRight(c: Line, changes: map<nat, int>, t: nat) {
    Get(changes, t, 0) == -c.ending(t)
  }

  /** The point says what the line is at its block. */
  predicate Exact(c: Line, pt: Point) {
    pt.slope == c.slope(pt.block) && pt.bias == c.bias(pt.block)
  }

  /** The summary (point, slope changes) determines the line from the point's block on. */
  ghost predicate Tracks(week: pos, c: Line, pt: Point, changes: map<nat, int>) {
    && Exact(c, pt)
    && (forall t: nat :: t > pt.block ==> ChangeRight(c, changes, t))
    && Weekly(week, c, pt.block)
  }

  /** A point moved forward to block ti, with the slope change found there and the clamps to zero. */
  function StepPoint(pt: Point, ti: nat, dSlope: int): Result<Point> {
    var step :- I128(pt.slope * (ti - pt.block));
    var bias :- I128(pt.bias - step);
    var slope :- I128(pt.slope + dSlope);
    Ok(Point(Max0(bias), Max0(slope), ti, pt.amount))
  }

  /** A step to the next boundary, or to a block before it, stays exact; nothing overflows and
      neither clamp changes a value. */
  lemma StepExact(week: pos, c: Line, pt: Point, ti: nat, dSlope: int)
    requires Steps(week, c, pt.block, ti) && pt.block <= ti <= NextWeek(week, pt.block)
    requires Exact(c, pt) && pt.bias <= I128_MAX
    requires dSlope == if ti == NextWeek(week, pt.block) then -c.ending(ti) else 0
    ensures StepPoint(pt, ti, dSlope) == Ok(Point(c.bias(ti), c.slope(ti), ti, pt.amount))
    ensures 0 <= c.slope(ti) && 0 <= c.bias(ti) <= pt.bias
    ensures pt.bias - pt.slope * (ti - pt.block) >= 0 && pt.slope + dSlope >= 0
  {
  }

  /** One step of the checkpoint's week loop: to the next boundary, taking the slope change found
      there, or to the current block if that is nearer. */
  function NextPoint(changes: map<nat, int>, pt: Point, boundary: nat, now: nat): Result<Point> {
    if boundary > now then StepPoint(pt, now, 0) else StepPoint(pt, boundary, Get(changes, boundary, 0))
  }

  /** The point stays on the line. */
  ghost predicate OnLine(c: Line, pt: Point) {
    Exact(c, pt) && 0 <= pt.slope && 0 <= pt.bias <= I128_MAX
  }

  lemma NextPointExact(week: pos, c: Line, b: nat, changes: map<nat, int>, pt: Point, boundary: nat, now: nat)
    requires Weekly(week, c, b) && forall t: nat :: t > b ==> ChangeRight(c, changes, t)
    requires b <= pt.block <= now && boundary == NextWeek(week, pt.block)
    requires OnLine(c, pt)
    ensures var r := NextPoint(changes, pt, boundary, now);
            && r.Ok? && OnLine(c, r.value) && r.value.amount == pt.amount
            && pt.block <= r.value.block == Min(boundary, now)
    ensures OnWeek(week, boundary)
  {
    WeekFloorBounds(week, pt.block);
    var ti := Min(boundary, now);
    assert Steps(week, c, pt.block, ti);
    if boundary <= now {
      assert ChangeRight(c, changes, boundary);
    }
    StepExact(week, c, pt, ti, if boundary > now then 0 else Get(changes, boundary, 0));
  }

  /** The bias a point has come down to at block ti. */
  function Fallen(pt: Point, ti: nat): Result<int> {
    if ti < pt.block then Err(Overflow) else
      var step :- I128(pt.slope * (ti - pt.block));
      I128(pt.bias - step)
  }

  /** One step of the extrapolation to block t: nothing overflows and the weight stays exact. */
  lemma ExtrapolateExact(week: pos, c: Line, b: nat, changes: map<nat, int>, pt: Point, boundary: nat, t: nat)
    requires Weekly(week, c, b) && forall u: nat :: u > b ==> ChangeRight(c, changes, u)
    requires b <= pt.block <= t && boundary == NextWeek(week, pt.block)
    requires Exact(c, pt) && pt.bias <= I128_MAX
    ensures var ti := Min(boundary, t);
      pt.block <= ti && Fallen(pt, ti) == Ok(c.bias(ti)) && c.bias(ti) <= pt.bias
    ensures boundary <= t ==> pt.slope + Get(changes, boundary, 0) == c.slope(boundary)
    ensures OnWeek(week, boundary)
  {
    WeekFloorBounds(week, pt.block);
    assert Steps(week, c, pt.block, Min(boundary, t));
    if boundary <= t {
      assert ChangeRight(c, changes, boundary);
    }
  }

  // ---- One lock changes ----------------------------------------------------------------

  predicate ReplacedAt(m: pos, c: Line, c': Line, o: LockedBalance, l: LockedBalance, t: nat) {
    && c'.slope(t) == c.slope(t) - SlopeOfAt(m, o, t) + SlopeOfAt(m, l, t)
    && c'.bias(t) == c.bias(t) - BiasOf(m, o, t) + BiasOf(m, l, t)
    && c'.ending(t) == c.ending(t) - EndingOf(m, o, t) + EndingOf(m, l, t)
  }

  /** Line c' is line c with lock l in place of lock o. */
  ghost predicate Replaced(m: pos, c: Line, c': Line, o: LockedBalance, l: LockedBalance) {
    forall t: nat :: ReplacedAt(m, c, c', o, l, t)
  }

  /** The slope change at block t moves along with the lock's end. */
  predicate ChangedBy(m: pos, changes: map<nat, int>, changes': map<nat, int>, o: LockedBalance,
          l: LockedBalance, t: nat)
  {
    Get(changes', t, 0) == Get(changes, t, 0) + EndingOf(m, o, t) - EndingOf(m, l, t)
  }

  /** A stored change of slope: it is never positive. */
  predicate ChangeHeld(changes: map<nat, int>, t: nat) {
    -I128_MAX - 1 <= Get(changes, t, 0) <= 0
  }

  /** The change of slope at block t still fits i128 with lock l in place of lock o. */
  predicate ChangeFits(m: pos, changes: map<nat, int>, o: LockedBalance, l: LockedBalance, t: nat) {
    -I128_MAX - 1 <= Get(changes, t, 0) + EndingOf(m, o, t) - EndingOf(m, l, t)
  }

  /** Two blocks decide whether all changes still fit: the old end and the new one. */
  lemma MoveChecked(m: pos, changes: map<nat, int>, o: LockedBalance, l: LockedBalance, now: nat)
    requires l.end == 0 || o.end <= l.end
    requires forall t: nat :: t > now ==> ChangeHeld(changes, t)
    ensures o.end > now ==> ChangeHeld(changes, o.end)
    ensures l.end > now ==> ChangeHeld(changes, l.end)
    ensures (forall t: nat :: t > now ==> ChangeFits(m, changes, o, l, t)) <==>
      (l.end > now ==>
       -I128_MAX - 1 <= Get(changes, l.end, 0) - Slope(m, l) + (if o.end == l.end then Slope(m, o) else 0))
  {
    forall t: nat | t > now && t != l.end
      ensures ChangeFits(m, changes, o, l, t)
    {
      assert ChangeHeld(changes, t);
    }
    if l.end > now {
      assert ChangeHeld(changes, l.end);
      assert ChangeFits(m, changes, o, l, l.end) <==>
        -I128_MAX - 1 <= Get(changes, l.end, 0) - Slope(m, l) + (if o.end == l.end then Slope(m, o) else 0);
    }
  }

  predicate EndingWithin(m: pos, c: Line, o: LockedBalance, now: nat, t: nat) {
    EndingOf(m, o, t) <= c.ending(t) <= c.slope(now)
  }

  /** Lock o is part of line c, which fits i128 from block now on. */
  ghost predicate PartOf(m: pos, c: Line, o: LockedBalance, now: nat) {
    && SlopeOfAt(m, o, now) <= c.slope(now) <= c.bias(now) <= I128_MAX && BiasOf(m, o, now) <= c.bias(now)
    && forall t: nat :: t > now ==> EndingWithin(m, c, o, now, t)
  }

  lemma SlopeBelowWeight(m: pos, l: LockedBalance, t: nat)
    ensures 0 <= SlopeOfAt(m, l, t) <= BiasOf(m, l, t)
  {
    if l.end > t {
      MulMono(1, l.end - t, Slope(m, l));
    }
  }

  /** If the weights of line and new lock fit together, so does every change of slope. */
  lemma RoomForChanges(m: pos, c: Line, changes: map<nat, int>, b: nat, o: LockedBalance, l: LockedBalance, now: nat)
    requires PartOf(m, c, o, now) && b <= now && forall t: nat :: t > b ==> ChangeRight(c, changes, t)
    ensures forall t: nat :: t > now ==> ChangeHeld(changes, t)
    ensures c.bias(now) + BiasOf(m, l, now) <= I128_MAX ==>
      forall t: nat :: t > now ==> ChangeFits(m, changes, o, l, t)
  {
    SlopeBelowWeight(m, l, now);
    forall t: nat | t > now
      ensures ChangeHeld(changes, t)
      ensures c.bias(now) + BiasOf(m, l, now) <= I128_MAX ==> ChangeFits(m, changes, o, l, t)
    {
      assert ChangeRight(c, changes, t) && EndingWithin(m, c, o, now, t);
    }
  }

  /** A point exact for the old line, corrected for the lock that changes, and the moved slope
      changes track the new line. */
  lemma ReplaceTracks(m: pos, week: pos, c: Line, c': Line, o: LockedBalance, l: LockedBalance,
                      pt: Point, changes: map<nat, int>, changes': map<nat, int>, b: nat, pt': Point)
    requires Replaced(m, c, c', o, l) && Weekly(week, c', pt.block)
    requires Exact(c, pt) && b <= pt.block == pt'.block
    requires forall t: nat :: t > b ==> ChangeRight(c, changes, t)
    requires pt'.slope == pt.slope + SlopeOfAt(m, l, pt.block) - SlopeOfAt(m, o, pt.block)
    requires pt'.bias == pt.bias + BiasOf(m, l, pt.block) - BiasOf(m, o, pt.block)
    requires forall t: nat :: t > pt.block ==> ChangedBy(m, changes, changes', o, l, t)
    ensures Tracks(week, c', pt', changes')
  {
    assert ReplacedAt(m, c, c', o, l, pt.block);
    forall t: nat | t > pt.block
      ensures ChangeRight(c', changes', t)
    {
      assert ReplacedAt(m, c, c', o, l, t);
      assert ChangeRight(c, changes, t) && ChangedBy(m, changes, changes', o, l, t);
    }
  }

  /** The clamps of a checkpoint never fire: the corrected point is not negative. */
  lemma CorrectionNonNeg(m: pos, week: pos, c: Line, c': Line, o: LockedBalance, l: LockedBalance, pt: Point)
    requires Replaced(m, c, c', o, l) && Weekly(week, c', pt.block) && Exact(c, pt)
    ensures 0 <= pt.slope + SlopeOfAt(m, l, pt.block) - SlopeOfAt(m, o, pt.block)
    ensures 0 <= pt.bias + BiasOf(m, l, pt.block) - BiasOf(m, o, pt.block)
  {
    assert ReplacedAt(m, c, c', o, l, pt.block);
    WeekFloorBounds(week, pt.block);
    assert Steps(week, c', pt.block, pt.block);
  }

  // ---- The line of a set of locks ------------------------------------------------------

  /** The plain sums over all locks, as a line. */
  ghost function LineOf(m: pos, locks: Locks): Line {
    Line((t: nat) => SlopeAfter(m, locks, t), (t: nat) => BiasAt(m, locks, t), (t: nat) => EndingAt(m, locks, t))
  }

  lemma StraightFall(slope: int, bias: int, t: nat, u: nat)
    requires 0 <= slope && t <= u
    ensures 0 <= slope * (u - t) && bias + (t - u) * slope == bias - slope * (u - t)
  {
    MulMono(0, u - t, slope);
  }

  /** The slope between a block and the next week boundary. */
  lemma SlopeWithin(m: pos, week: pos, locks: Locks, t: nat, u: nat)
    requires Aligned(week, locks, t) && t <= u <= NextWeek(week, t)
    ensures SlopeAfter(m, locks, u)
         == SlopeAfter(m, locks, t) - (if u == NextWeek(week, t) then EndingAt(m, locks, u) else 0)
  {
    if u < NextWeek(week, t) {
      SlopeInside(m, week, locks, t, u);
    } else {
      SlopeAtBoundary(m, week, locks, t);
    }
  }

  lemma LineOfSteps(m: pos, week: pos, locks: Locks, t: nat, u: nat)
    requires Aligned(week, locks, t)
    ensures Steps(week, LineOf(m, locks), t, u)
  {
    if t <= u <= NextWeek(week, t) {
      Decay(m, week, locks, t, u);
      SlopeNonNeg(m, locks, t);
      SlopeNonNeg(m, locks, u);
      SlopeBelowBias(m, locks, t);
      SlopeBelowBias(m, locks, u);
      StraightFall(SlopeAfter(m, locks, t), BiasAt(m, locks, t), t, u);
      SlopeWithin(m, week, locks, t, u);
    }
  }

  /** Locks whose ends fall on week boundaries add up to a line that falls straight within a week. */
  lemma LineOfWeekly(m: pos, week: pos, locks: Locks, b: nat)
    requires Aligned(week, locks, b)
    ensures Weekly(week, LineOf(m, locks), b)
  {
    forall t: nat, u: nat | b <= t
      ensures Steps(week, LineOf(m, locks), t, u)
    {
      LineOfSteps(m, week, locks, t, u);
    }
  }

  lemma LineOfEnded(m: pos, locks: Locks, limit: nat)
    requires forall p :: p in locks ==> locks[p].end <= limit || Slope(m, locks[p]) == 0
    ensures EndedFrom(LineOf(m, locks), limit)
  {
    forall t: nat | limit <= t
      ensures Ended(LineOf(m, locks), t)
    {
      AllEnded(m, locks, t);
    }
  }

  lemma LineOfReplaced(m: pos, locks: Locks, p: PositionId, l: LockedBalance)
    ensures Replaced(m, LineOf(m, locks), LineOf(m, locks[p := l]), Get(locks, p, NO_LOCK), l)
  {
    var c, c', o := LineOf(m, locks), LineOf(m, locks[p := l]), Get(locks, p, NO_LOCK);
    forall t: nat
      ensures ReplacedAt(m, c, c', o, l, t)
    {
      ReplaceSlope(m, locks, p, l, t);
      ReplaceBias(m, locks, p, l, t);
      ReplaceEnding(m, locks, p, l, t);
    }
  }

  /** Every lock is part of the line of all locks; the weight still fits because it only falls. */
  lemma LineHasPart(m: pos, locks: Locks, p: PositionId, b: nat, now: nat)
    requires p in locks && b <= now && BiasAt(m, locks, b) <= I128_MAX
    ensures PartOf(m, LineOf(m, locks), locks[p], now)
  {
    BiasFalls(m, locks, b, now);
    SlopeBelowBias(m, locks, now);
    LockWithin(m, locks, p, now);
    forall t: nat | t > now
      ensures EndingWithin(m, LineOf(m, locks), locks[p], now, t)
    {
      LockWithin(m, locks, p, t);
      EndingWithinSlope(m, locks, now, t);
    }
  }
}
