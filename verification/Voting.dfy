/** Voting power: a quarter of the locked amount plus the weighted curve. */
module Voting {
  import opened Primitives
  import opened Sums
  import opened Curve

  /** A fixed-point weight times an integer, rounded down. */
  function Weigh(w: nat, x: nat): nat {
    MulDiv(w, x, ONE)
  }

  /** The power that a recorded point gives at block t. */
  function PointPower(w: nat, pt: Point, t: nat): nat {
    pt.amount / 4 + Weigh(w, Max0(pt.bias - pt.slope * (t - pt.block)))
  }

  /** The power of a lock at block t, from the lock alone. */
  function Power(m: pos, w: nat, l: LockedBalance, t: nat): nat {
    if t >= l.end then 0 else l.amount / 4 + Weigh(w, Slope(m, l) * (l.end - t))
  }

  /** The point that a checkpoint at block b writes for a lock. */
  function LockPoint(m: pos, l: LockedBalance, b: nat): Point {
    Point(BiasOf(m, l, b), SlopeOfAt(m, l, b), b, l.amount)
  }

  /** The slope and bias of a lock as a checkpoint computes them, in i128. */
  function CheckedSide(m: pos, l: LockedBalance, now: nat): (r: Result<Point>)
    ensures r.Ok? && 2 <= m && l.amount <= U128_MAX ==>
      r.value.slope == SlopeOfAt(m, l, now) && r.value.bias == BiasOf(m, l, now)
    ensures 2 <= m && l.amount <= U128_MAX ==> (r.Ok? <==> BiasOf(m, l, now) <= I128_MAX)
    ensures r.Err? ==> r.error == Overflow
  {
    if l.end > now && l.amount > 0 then
      var slope := Min(l.amount / m, I128_MAX);
      HalfFits(m, l.amount);
      MulMono(0, l.end - now, slope);
      var bias :- I128(slope * (l.end - now));
      Ok(Point(bias, slope, 0, 0))
    else
      SideOfNothing(m, l, now);
      Ok(NO_POINT)
  }

  /** The last global point corrected for a lock that changes from side o to side l. */
  function Corrected(last: Point, o: Point, l: Point): (r: Result<Point>)
    ensures r.Ok? && last.slope + l.slope >= o.slope && last.bias + l.bias >= o.bias ==>
      r.value == last.(slope := last.slope + l.slope - o.slope, bias := last.bias + l.bias - o.bias)
      && r.value.bias <= I128_MAX
    ensures 0 <= o.slope <= last.slope <= last.bias && 0 <= o.bias <= last.bias <= I128_MAX ==>
      0 <= l.slope <= l.bias ==> (r.Ok? <==> last.bias + l.bias <= I128_MAX)
    ensures r.Err? ==> r.error == Overflow
  {
    var slope :- I128(l.slope + last.slope);
    var slope' :- I128(slope - o.slope);
    var bias :- I128(last.bias + l.bias);
    var bias' :- I128(bias - o.bias);
    Ok(last.(slope := Max0(slope'), bias := Max0(bias')))
  }

  lemma HalfFits(m: pos, x: nat)
    ensures 2 <= m && x <= U128_MAX ==> x / m <= I128_MAX
  {
    MulDivBound(x, m);
    if 2 <= m {
      MulMono(2, m, x / m);
    }
  }

  lemma SideOfNothing(m: pos, l: LockedBalance, now: nat)
    requires l.end <= now || l.amount == 0
    ensures SlopeOfAt(m, l, now) == 0 && BiasOf(m, l, now) == 0
  {
  }

  /** Total power of all locks as the summary states it. */
  function SupplyPower(w: nat, amount: nat, bias: int): nat {
    amount / 4 + Weigh(w, Max0(bias))
  }

  /** The checked form: the weighted part first, then the sum. */
  function CheckedPower(w: nat, amount: nat, bias: int): (r: Result<nat>)
    ensures r == U128(SupplyPower(w, amount, bias))
  {
    var weight :- U128(Weigh(w, Max0(bias)));
    U128(amount / 4 + weight)
  }

  /** The weight of a point at block t can be computed in i128. */
  predicate Falls(pt: Point, t: nat) {
    I128(pt.slope * (t - pt.block)).Ok? && I128(pt.bias - pt.slope * (t - pt.block)).Ok?
  }

  /** The power a recorded point gives, computed in i128 and u128. */
  function CheckedPointPower(w: nat, pt: Point, t: nat): (r: Result<nat>)
    ensures r == if Falls(pt, t) then U128(PointPower(w, pt, t)) else Err(Overflow)
  {
    var fall :- I128(pt.slope * (t - pt.block));
    var bias :- I128(pt.bias - fall);
    CheckedPower(w, pt.amount, bias)
  }

  function PowerTerm(m: pos, w: nat, locks: Locks, t: nat): PositionId -> int {
    p => if p in locks then Power(m, w, locks[p], t) else 0
  }

  const NOBODY := Account(0)

  function OwnerOf(owner: map<PositionId, Account>): PositionId -> Account {
    p => Get(owner, p, NOBODY)
  }

  /** The voting power of each account. */
  ghost function Balances(m: pos, w: nat, locks: Locks, owner: map<PositionId, Account>, t: nat): Account -> int {
    OwnerSum(locks.Keys, OwnerOf(owner), PowerTerm(m, w, locks, t))
  }

  lemma PointMatchesLock(m: pos, w: nat, l: LockedBalance, b: nat, t: nat)
    requires b <= t < l.end
    ensures PointPower(w, LockPoint(m, l, b), t) == Power(m, w, l, t)
  {
    var s := Slope(m, l);
    Distribute(s, l.end - b, b - t);
    Distribute(s, t - b, b - t);
    MulMono(0, l.end - t, s);
  }

  /** The point of a running lock can be carried forward until the lock ends. */
  lemma PointFalls(m: pos, l: LockedBalance, b: nat, t: nat)
    requires b <= t < l.end && BiasOf(m, l, b) <= I128_MAX
    ensures Falls(LockPoint(m, l, b), t)
  {
    MulMono(0, t - b, Slope(m, l));
    MulMono(t - b, l.end - b, Slope(m, l));
  }

  /** Power only decays with time. */
  lemma PowerDecays(m: pos, w: nat, l: LockedBalance, t: nat, u: nat)
    requires t <= u
    ensures Power(m, w, l, u) <= Power(m, w, l, t)
  {
    if u < l.end {
      MulMono(l.end - u, l.end - t, Slope(m, l));
      MulMono(Slope(m, l) * (l.end - u), Slope(m, l) * (l.end - t), w);
      DivMono(w * (Slope(m, l) * (l.end - u)), w * (Slope(m, l) * (l.end - t)), ONE);
    }
  }

  /** Half of the power, weighed. */
  lemma WeighBounds(m: pos, w: nat, x: nat, low: nat, high: nat)
    requires m * x <= low <= m * x + high
    ensures m * (ONE * Weigh(w, x)) <= w * low <= m * (ONE * Weigh(w, x)) + m * (ONE - 1) + w * high
  {
    MulDivBound(w * x, ONE);
    MulMono(ONE * Weigh(w, x), w * x, m);
    MulMono(w * x, ONE * Weigh(w, x) + (ONE - 1), m);
    Distribute(m, ONE * Weigh(w, x), ONE - 1);
    MulMono(m * x, low, w);
    MulMono(low, m * x + high, w);
    Distribute(w, m * x, high);
    assert m * (w * x) == w * (m * x);
  }

  /** A quarter of the amount and the weighed part together: what they come to exactly, and what rounding takes. */
  lemma PowerParts(m: pos, w: nat, amount: nat, x: nat, low: nat, high: nat)
    requires m * x <= low <= m * x + high
    ensures var power, exact := amount / 4 + Weigh(w, x), m * (ONE * amount) + 4 * (w * low);
      4 * (m * (ONE * power)) <= exact < 4 * (m * (ONE * (power + 2))) + 4 * (w * high)
  {
    var quarter, weight := amount / 4, Weigh(w, x);
    WeighBounds(m, w, x, low, high);
    MulMono(4 * (ONE * quarter), ONE * amount, m);
    MulMono(ONE * amount, 4 * (ONE * quarter) + 3 * ONE, m);
    Distribute(m, ONE * quarter, ONE * weight);
    Distribute(m, 4 * (ONE * quarter), 3 * ONE);
    Distribute(m, ONE * (quarter + weight), 2 * ONE);
    assert m * (4 * (ONE * quarter)) == 4 * (m * (ONE * quarter));
    assert m * (3 * ONE) == 3 * (m * ONE) && m * (2 * ONE) == 2 * (m * ONE) && m * (ONE - 1) == m * ONE - m;
  }

  /** The power of a running lock, from its amount and the blocks it has left: a quarter of the amount, and the weight
      times the amount times its part of the longest lock. It is never more, and rounding takes less than two units
      and one for the slope in each block left. */
  lemma PowerBounds(m: pos, w: nat, l: LockedBalance, t: nat)
    ensures if t < l.end
      then
        var power, exact := Power(m, w, l, t), m * (ONE * l.amount) + 4 * (w * (l.amount * (l.end - t)));
        4 * (m * (ONE * power)) <= exact < 4 * (m * (ONE * (power + 2))) + 4 * (w * (m * (l.end - t)))
      else Power(m, w, l, t) == 0
  {
    if t < l.end {
      BiasBounds(m, l, t);
      MulMono(0, l.end - t, m);
      MulMono(0, l.end - t, l.amount);
      PowerParts(m, w, l.amount, BiasOf(m, l, t), l.amount * (l.end - t), m * (l.end - t));
    }
  }

  /** The same for the total. */
  lemma SupplyBounds(m: pos, w: nat, locks: Locks, t: nat)
    ensures 0 <= TotalAmount(locks)
    ensures var total := SupplyPower(w, TotalAmount(locks), BiasAt(m, locks, t));
      var exact := m * (ONE * TotalAmount(locks)) + 4 * (w * Sum(locks.Keys, LockedTime(locks, t)));
      4 * (m * (ONE * total)) <= exact
        < 4 * (m * (ONE * (total + 2))) + 4 * (w * (m * Sum(locks.Keys, TimeLeft(locks, t))))
  {
    AmountNonNeg(locks);
    SlopeNonNeg(m, locks, t);
    TotalBiasBounds(m, locks, t);
    MulMono(0, Sum(locks.Keys, TimeLeft(locks, t)), m);
    PowerParts(m, w, TotalAmount(locks), BiasAt(m, locks, t), Sum(locks.Keys, LockedTime(locks, t)),
               m * Sum(locks.Keys, TimeLeft(locks, t)));
  }

  lemma {:induction false} BalancesNonNeg(m: pos, w: nat, locks: Locks, owner: map<PositionId, Account>,
          t: nat, u: Account)
    ensures 0 <= Balances(m, w, locks, owner, t)(u)
  {
    var f := Share(OwnerOf(owner), PowerTerm(m, w, locks, t), u);
    forall p | p in locks.Keys
      ensures 0 <= f(p)
    {
      assert 0 <= Power(m, w, locks[p], t);
    }
    SumNonNeg(locks.Keys, f);
  }

  lemma BalancesDecay(m: pos, w: nat, locks: Locks, owner: map<PositionId, Account>, t: nat, t': nat, u: Account)
    requires t <= t'
    ensures Balances(m, w, locks, owner, t')(u) <= Balances(m, w, locks, owner, t)(u)
  {
    var f := Share(OwnerOf(owner), PowerTerm(m, w, locks, t), u);
    var f' := Share(OwnerOf(owner), PowerTerm(m, w, locks, t'), u);
    forall p | p in locks.Keys
      ensures f'(p) <= f(p)
    {
      PowerDecays(m, w, locks[p], t, t');
    }
    SumLe(locks.Keys, f', f);
  }

  // The two rounded halves of the power, before rounding.
  function WeightTerm(m: pos, w: nat, locks: Locks, t: nat): PositionId -> int {
    p => if p in locks then w * (Slope(m, locks[p]) * Left(locks[p], t)) else 0
  }

  function Quarters(locks: Locks): PositionId -> int {
    Floor(AmountTerm(locks), 4)
  }

  function Weights(m: pos, w: nat, locks: Locks, t: nat): PositionId -> int {
    Floor(WeightTerm(m, w, locks, t), ONE)
  }

  /** A lock's power never exceeds its two rounded halves, and equals them until it ends. */
  lemma PowerHalves(m: pos, w: nat, l: LockedBalance, t: nat)
    ensures Power(m, w, l, t) <= l.amount / 4 + w * (Slope(m, l) * Left(l, t)) / ONE
    ensures t < l.end ==> Power(m, w, l, t) == l.amount / 4 + w * (Slope(m, l) * Left(l, t)) / ONE
  {
    MulMono(0, Left(l, t), Slope(m, l));
    MulMono(0, Slope(m, l) * Left(l, t), w);
  }

  lemma WeightSum(m: pos, w: nat, locks: Locks, t: nat)
    ensures Sum(locks.Keys, WeightTerm(m, w, locks, t)) == w * BiasAt(m, locks, t)
  {
    var zero := (p: PositionId) => 0;
    var f, g := WeightTerm(m, w, locks, t), BiasTerm(m, locks, t);
    SumZero(locks.Keys, zero);
    forall p | p in locks.Keys
      ensures f(p) == zero(p) + w * g(p)
    {
    }
    SumLinear(locks.Keys, f, zero, g, w);
  }

  lemma HalvesWithinSupply(m: pos, w: nat, locks: Locks, t: nat)
    ensures 0 <= TotalAmount(locks) && 0 <= BiasAt(m, locks, t)
    ensures var halves := Sum(locks.Keys, Quarters(locks)) + Sum(locks.Keys, Weights(m, w, locks, t));
            var total := SupplyPower(w, TotalAmount(locks), BiasAt(m, locks, t));
            halves <= total && (locks != map[] ==> total < halves + 2 * |locks|)
  {
    var s := locks.Keys;
    AmountNonNeg(locks);
    SlopeNonNeg(m, locks, t);
    WeightSum(m, w, locks, t);
    SumFloor(s, AmountTerm(locks), 4);
    SumFloor(s, WeightTerm(m, w, locks, t), ONE);
    if locks != map[] {
      assert |s| == |locks| && s != {};
    }
  }

  /** The powers of all positions add up to at most the power of the summary,
      and while no lock has ended rounding loses less than two units per position. */
  lemma PowersWithinSupply(m: pos, w: nat, locks: Locks, t: nat)
    ensures 0 <= TotalAmount(locks)
    ensures Sum(locks.Keys, PowerTerm(m, w, locks, t)) <= SupplyPower(w, TotalAmount(locks), BiasAt(m, locks, t))
    ensures locks != map[] && (forall p :: p in locks ==> t < locks[p].end) ==>
      SupplyPower(w, TotalAmount(locks), BiasAt(m, locks, t))
        < Sum(locks.Keys, PowerTerm(m, w, locks, t)) + 2 * |locks|
  {
    var s, f := locks.Keys, PowerTerm(m, w, locks, t);
    var a, b := Quarters(locks), Weights(m, w, locks, t);
    var both := (p: PositionId) => a(p) + b(p);
    HalvesWithinSupply(m, w, locks, t);
    SumLinear(s, both, a, b, 1);
    forall p | p in s
      ensures f(p) <= both(p) && (t < locks[p].end ==> f(p) == both(p))
    {
      PowerHalves(m, w, locks[p], t);
    }
    SumLe(s, f, both);
    if locks != map[] && forall p :: p in locks ==> t < locks[p].end {
      SumSame(s, f, both);
    }
  }

  /** Account by account the powers stay within the summary as well. */
  lemma BalancesWithinSupply(m: pos, w: nat, locks: Locks, owner: map<PositionId, Account>, users: set<Account>, t: nat)
    requires forall p :: p in locks ==> (p in owner && owner[p] in users) || locks[p] == NO_LOCK
    ensures 0 <= TotalAmount(locks)
    ensures Sum(users, Balances(m, w, locks, owner, t))
         <= SupplyPower(w, TotalAmount(locks), BiasAt(m, locks, t))
  {
    var own, f := OwnerOf(owner), PowerTerm(m, w, locks, t);
    forall p | p in locks.Keys
      ensures own(p) in users || f(p) == 0
    {
      assert locks[p] == NO_LOCK ==> Power(m, w, locks[p], t) == 0;
    }
    SumPartition(locks.Keys, users, own, f);
    PowersWithinSupply(m, w, locks, t);
  }
}
