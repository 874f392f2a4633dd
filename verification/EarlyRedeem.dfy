/** The fee rate for redeeming a lock before its end, in fixed-point arithmetic that rounds down. */
module EarlyRedeem {
  import opened Primitives
  import opened Sums

  /** A fixed-point number from an integer. */
  function Fixed(n: nat): Result<nat> {
    U128(n * ONE)
  }

  /** A fixed-point square; what does not fit becomes the largest number. */
  function SaturatingSquare(x: nat): nat {
    Min(x * x / ONE, U128_MAX)
  }

  /** ((remaining + one year) / five years) squared, at most one. */
  function RedeemCommission(oneYear: nat, fiveYears: pos, remaining: nat): Result<nat> {
    var x :- Fixed(remaining);
    var y :- Fixed(oneYear);
    var sum :- U128(x + y);
    var z :- Fixed(fiveYears);
    var quotient :- U128(sum * ONE / z);
    Ok(Min(SaturatingSquare(quotient), ONE))
  }

  lemma SquareMono(x: nat, y: nat)
    requires x <= y
    ensures SaturatingSquare(x) <= SaturatingSquare(y)
  {
    MulMono(x, y, x);
    MulMono(x, y, y);
    DivMono(x * x, y * y, ONE);
  }

  /** The square of a number below one is below one; of any other it is at least one. */
  lemma SquareBelowOne(x: nat)
    ensures ONE <= SaturatingSquare(x) <==> ONE <= x
  {
    if ONE <= x {
      MulMono(ONE, x, ONE);
      MulMono(ONE, x, x);
      DivMono(ONE * ONE, x * x, ONE);
      DivExact(ONE, ONE);
    } else {
      MulMono(x, ONE - 1, x);
      MulMono(x, ONE - 1, ONE - 1);
      DivMono(x * x, (ONE - 1) * (ONE - 1), ONE);
    }
  }

  /** Fixed-point division of two whole numbers of blocks. */
  lemma QuotientOfFixed(n: nat, d: pos)
    ensures n * ONE * ONE / (d * ONE) == n * ONE / d
  {
    var q, r := n * ONE / d, n * ONE % d;
    Euclid(n * ONE, d);
    Distribute(ONE, d * q, r);
    assert n * ONE * ONE == (d * ONE) * q + r * ONE;
    DivUnique(n * ONE * ONE, d * ONE, q, r * ONE);
  }

  /** The rate before rounding to at most one, as a function of the blocks counted. */
  function QuotientOf(fiveYears: pos, blocks: nat): nat {
    blocks * ONE / fiveYears
  }

  lemma CommissionValue(oneYear: nat, fiveYears: pos, remaining: nat)
    ensures var n := remaining + oneYear; var r := RedeemCommission(oneYear, fiveYears, remaining);
      && (r.Ok? <==> n * ONE <= U128_MAX && fiveYears * ONE <= U128_MAX && QuotientOf(fiveYears, n) <= U128_MAX)
      && (r.Ok? ==> r.value == Min(SaturatingSquare(QuotientOf(fiveYears, n)), ONE))
  {
    Distribute(ONE, remaining, oneYear);
    QuotientOfFixed(remaining + oneYear, fiveYears);
  }

  /** The rate grows with the time that is left. */
  lemma CommissionMonotone(oneYear: nat, fiveYears: pos, near: nat, far: nat)
    requires near <= far
    ensures var r, s := RedeemCommission(oneYear, fiveYears, near), RedeemCommission(oneYear, fiveYears, far);
      s.Ok? ==> r.Ok? && r.value <= s.value <= ONE
  {
    CommissionValue(oneYear, fiveYears, near);
    CommissionValue(oneYear, fiveYears, far);
    MulMono(near + oneYear, far + oneYear, ONE);
    DivMono((near + oneYear) * ONE, (far + oneYear) * ONE, fiveYears);
    SquareMono(QuotientOf(fiveYears, near + oneYear), QuotientOf(fiveYears, far + oneYear));
  }

  /** The fee takes the whole amount exactly when the blocks left and one year make five years. */
  lemma CommissionFull(oneYear: nat, fiveYears: pos, remaining: nat)
    ensures var r := RedeemCommission(oneYear, fiveYears, remaining);
      r.Ok? ==> (r.value == ONE <==> fiveYears <= remaining + oneYear)
  {
    var n := remaining + oneYear;
    CommissionValue(oneYear, fiveYears, remaining);
    SquareBelowOne(n * ONE / fiveYears);
    if fiveYears <= n {
      MulMono(fiveYears, n, ONE);
      DivMono(ONE * fiveYears, n * ONE, fiveYears);
      DivExact(ONE, fiveYears);
    } else {
      MulMono(n, fiveYears - 1, ONE);
      MulDivBound(n * ONE, fiveYears);
      if ONE <= n * ONE / fiveYears {
        MulMono(ONE, n * ONE / fiveYears, fiveYears);
      }
    }
  }

  lemma Squares(d: pos, q: nat)
    ensures (d * q) * (d * q) == d * d * (q * q)
    ensures (d * q + d) * (d * q + d) == d * d * (q * q) + d * d * (2 * q + 1)
  {
    assert (d * q) * (d * q) == d * d * (q * q);
    assert (d * q) * d == d * d * q;
    Distribute(d * q + d, d * q, d);
    Distribute(d * d, 2 * q, 1);
  }

  lemma OrderedSquares(x: nat, y: nat, z: nat)
    requires x <= y < z
    ensures x * x <= y * y < z * z
  {
    MulMono(x, y, x);
    MulMono(x, y, y);
    MulMono(y + 1, z, y);
    MulMono(y + 1, z, z);
    Distribute(z, y, 1);
  }

  lemma SquareBounds(d: pos, x: nat, q: nat)
    requires d * q <= x < d * q + d && q <= ONE
    ensures d * d * (q * q) <= x * x < d * d * (q * q) + d * d * (2 * ONE + 1)
  {
    OrderedSquares(d * q, x, d * q + d);
    Squares(d, q);
    MulMono(2 * q + 1, 2 * ONE + 1, d * d);
  }

  lemma SquareRounded(d: pos, n: nat, q: nat)
    requires d * q <= n * ONE < d * q + d && q <= ONE
    ensures d * d * (q * q / ONE) <= ONE * (n * n) < d * d * (q * q / ONE + 3)
  {
    var r, dd := q * q / ONE, d * d;
    SquareBounds(d, n * ONE, q);
    MulDivBound(q * q, ONE);
    MulMono(ONE * r, q * q, dd);
    MulMono(q * q, ONE * r + (ONE - 1), dd);
    Distribute(dd, ONE * r + (ONE - 1), 2 * ONE + 1);
    assert (n * ONE) * (n * ONE) == ONE * (ONE * (n * n));
    assert dd * (ONE * r) == ONE * (dd * r);
    assert dd * (ONE * r + (ONE - 1) + (2 * ONE + 1)) == ONE * (dd * (r + 3));
    CancelFactor(ONE, dd * r, ONE * (n * n));
    CancelStrict(ONE, ONE * (n * n), dd * (r + 3));
  }

  lemma CancelStrict(m: pos, x: int, y: int)
    requires m * x < m * y
    ensures x < y
  {
    if y <= x {
      MulMono(y, x, m);
    }
  }

  /** The rate for n blocks, one year included, is the square of their part of five years, less than three units of
      the last decimal below, and one from five years on. */
  lemma CommissionSquare(oneYear: nat, fiveYears: pos, remaining: nat)
    requires RedeemCommission(oneYear, fiveYears, remaining).Ok?
    ensures var n, rate := remaining + oneYear, RedeemCommission(oneYear, fiveYears, remaining).value;
      if fiveYears <= n then rate == ONE
      else fiveYears * fiveYears * rate <= ONE * (n * n) < fiveYears * fiveYears * (rate + 3)
  {
    CommissionFull(oneYear, fiveYears, remaining);
    CommissionValue(oneYear, fiveYears, remaining);
    var n := remaining + oneYear;
    if n < fiveYears {
      var q := QuotientOf(fiveYears, n);
      MulDivBound(n * ONE, fiveYears);
      SquareBelowOne(q);
      SquareRounded(fiveYears, n, q);
    }
  }

  /** The fee for redeeming early at rate `fast`, rounded down; none for other withdrawals. */
  function Fee(fast: Option<nat>, value: nat): nat {
    if fast.Some? then MulDiv(fast.value, value, ONE) else 0
  }

  /** The fee is part of the amount that is released. */
  lemma FeeBound(fast: Option<nat>, value: nat)
    requires fast.Some? ==> fast.value <= ONE
    ensures Fee(fast, value) <= value
    ensures fast == Some(0) ==> Fee(fast, value) == 0
  {
    if fast.Some? {
      MulDivLe(fast.value, value, ONE);
      DivExact(0, ONE);
    }
  }
}
