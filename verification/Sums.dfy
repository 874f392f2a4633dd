/** Sums of an integer-valued function over a finite set, and the algebra of such sums.
    Every ledger of the model is stated with `Sum`. */
module Sums {

  ghost function Sum<K>(s: set<K>, f: K -> int): int
  {
    if s == {} then 0 else
      var k :| k in s;
      f(k) + Sum(s - {k}, f)
  }

  /** The order in which `Sum` visits its set does not matter. */
  lemma {:induction false} SumRemove<K>(s: set<K>, f: K -> int, k: K)
    requires k in s
    ensures Sum(s, f) == f(k) + Sum(s - {k}, f)
  {
    var j :| j in s && Sum(s, f) == f(j) + Sum(s - {j}, f);
    if j != k {
      SumRemove(s - {j}, f, k);
      SumRemove(s - {k}, f, j);
      assert s - {j} - {k} == s - {k} - {j};
    }
  }

  lemma SumAdd<K>(s: set<K>, f: K -> int, k: K)
    requires k !in s
    ensures Sum(s + {k}, f) == Sum(s, f) + f(k)
  {
    SumRemove(s + {k}, f, k);
    assert s + {k} - {k} == s;
  }

  /** Pointwise linear combinations. */
  lemma {:induction false} SumLinear<K>(s: set<K>, f: K -> int, g: K -> int, h: K -> int, c: int)
    requires forall k :: k in s ==> f(k) == g(k) + c * h(k)
    ensures Sum(s, f) == Sum(s, g) + c * Sum(s, h)
  {
    if s != {} {
      var k :| k in s;
      SumRemove(s, f, k);
      SumRemove(s, g, k);
      SumRemove(s, h, k);
      SumLinear(s - {k}, f, g, h, c);
      Distribute(c, h(k), Sum(s - {k}, h));
    }
  }

  lemma Distribute(c: int, x: int, y: int)
    ensures c * (x + y) == c * x + c * y
  {
  }

  lemma {:induction false} SumSame<K>(s: set<K>, f: K -> int, g: K -> int)
    requires forall k :: k in s ==> f(k) == g(k)
    ensures Sum(s, f) == Sum(s, g)
  {
    if s != {} {
      var k :| k in s;
      SumRemove(s, f, k);
      SumRemove(s, g, k);
      SumSame(s - {k}, f, g);
    }
  }

  lemma {:induction false} SumLe<K>(s: set<K>, f: K -> int, g: K -> int)
    requires forall k :: k in s ==> f(k) <= g(k)
    ensures Sum(s, f) <= Sum(s, g)
  {
    if s != {} {
      var k :| k in s;
      SumRemove(s, f, k);
      SumRemove(s, g, k);
      SumLe(s - {k}, f, g);
    }
  }

  lemma {:induction false} SumZero<K>(s: set<K>, f: K -> int)
    requires forall k :: k in s ==> f(k) == 0
    ensures Sum(s, f) == 0
  {
    if s != {} {
      var k :| k in s;
      SumRemove(s, f, k);
      SumZero(s - {k}, f);
    }
  }

  lemma SumNonNeg<K>(s: set<K>, f: K -> int)
    requires forall k :: k in s ==> 0 <= f(k)
    ensures 0 <= Sum(s, f)
  {
    var zero := (k: K) => 0;
    SumZero(s, zero);
    SumLe(s, zero, f);
  }

  /** A single term is below a sum of non-negative terms. */
  lemma SumTerm<K>(s: set<K>, f: K -> int, k: K)
    requires k in s
    requires forall j :: j in s ==> 0 <= f(j)
    ensures f(k) <= Sum(s, f)
  {
    SumRemove(s, f, k);
    SumNonNeg(s - {k}, f);
  }

  /** Changing the function at one key, which may be new, moves the sum by the difference there. */
  lemma SumUpdate<K>(s: set<K>, f: K -> int, s': set<K>, f': K -> int, k: K)
    requires s' == s + {k}
    requires forall j :: j in s && j != k ==> f(j) == f'(j)
    ensures Sum(s', f') == Sum(s, f) - (if k in s then f(k) else 0) + f'(k)
  {
    SumRemove(s', f', k);
    assert s' - {k} == s - {k};
    SumSame(s - {k}, f, f');
    if k in s {
      SumRemove(s, f, k);
    } else {
      assert s - {k} == s;
    }
  }

  /** Keys that contribute nothing may be left out. */
  lemma {:induction false} SumSuperset<K>(s: set<K>, t: set<K>, f: K -> int)
    requires s <= t
    requires forall k :: k in t && k !in s ==> f(k) == 0
    ensures Sum(t, f) == Sum(s, f)
    decreases t
  {
    if s != t {
      var k :| k in t && k !in s;
      SumRemove(t, f, k);
      SumSuperset(s, t - {k}, f);
    }
  }

  /** The part of `f` that belongs to owner `u`. */
  function Share<K(!new), U(==)>(own: K -> U, f: K -> int, u: U): K -> int {
    k => if own(k) == u then f(k) else 0
  }

  /** What each owner holds in total. */
  ghost function OwnerSum<K(!new), U>(s: set<K>, own: K -> U, f: K -> int): U -> int {
    u => Sum(s, Share(own, f, u))
  }

  /** Summing owner by owner is summing once, when every key that counts has its owner in `us`. */
  lemma {:induction false} SumPartition<K(!new), U>(s: set<K>, us: set<U>, own: K -> U, f: K -> int)
    requires forall k :: k in s ==> own(k) in us || f(k) == 0
    ensures Sum(us, OwnerSum(s, own, f)) == Sum(s, f)
  {
    if us == {} {
      SumZero(s, f);
    } else {
      var u :| u in us;
      SumRemove(us, OwnerSum(s, own, f), u);
      var rest := (k: K) => if own(k) == u then 0 else f(k);
      SumPartition(s, us - {u}, own, rest);
      forall v | v in us - {u}
        ensures OwnerSum(s, own, f)(v) == OwnerSum(s, own, rest)(v)
      {
        SumSame(s, Share(own, f, v), Share(own, rest, v));
      }
      SumSame(us - {u}, OwnerSum(s, own, f), OwnerSum(s, own, rest));
      SumLinear(s, f, rest, Share(own, f, u), 1);
    }
  }

  /** A change at one key moves only the totals of its owners before and after. */
  lemma OwnerSumUpdate<K(!new), U>(s: set<K>,
          own: K -> U, f: K -> int, s': set<K>, own': K -> U, f': K -> int, k: K, u: U)
    requires s' == s + {k}
    requires forall j :: j in s && j != k ==> own(j) == own'(j) && f(j) == f'(j)
    ensures OwnerSum(s', own', f')(u) == OwnerSum(s, own, f)(u)
         - (if k in s && own(k) == u then f(k) else 0) + (if own'(k) == u then f'(k) else 0)
  {
    SumUpdate(s, Share(own, f, u), s', Share(own', f', u), k);
  }

  /** Pointwise floor division. */
  function Floor<K(!new)>(f: K -> int, d: int): K -> int
    requires 0 < d
  {
    k => f(k) / d
  }

  /** Dividing each term and then adding loses less than one unit per term
      against adding and then dividing. */
  lemma {:induction false} SumFloor<K(!new)>(s: set<K>, f: K -> int, d: int)
    requires 0 < d
    ensures Sum(s, Floor(f, d)) <= Sum(s, f) / d
    ensures s != {} ==> Sum(s, f) / d <= Sum(s, Floor(f, d)) + |s| - 1
  {
    var q, r := Floor(f, d), (k: K) => f(k) % d;
    forall k | k in s
      ensures f(k) == r(k) + d * q(k)
    {
    }
    SumLinear(s, f, r, q, d);
    SumNonNeg(s, r);
    var top := (k: K) => d - 1;
    SumLe(s, r, top);
    SumConstant(s, top, d - 1);
    QuotientBetween(Sum(s, f), d, Sum(s, q), Sum(s, r), |s|);
  }

  lemma {:induction false} SumConstant<K>(s: set<K>, f: K -> int, c: int)
    requires forall k :: k in s ==> f(k) == c
    ensures Sum(s, f) == |s| * c
  {
    if s != {} {
      var k :| k in s;
      SumRemove(s, f, k);
      SumConstant(s - {k}, f, c);
      assert |s| == |s - {k}| + 1;
      Distribute(c, |s| - 1, 1);
    }
  }

  lemma QuotientBetween(x: int, d: int, q: int, r: int, n: nat)
    requires 0 < d && x == r + d * q && 0 <= r <= n * (d - 1)
    ensures q <= x / d
    ensures 0 < n ==> x / d <= q + n - 1
  {
    Euclid(r, d);
    Distribute(d, q, r / d);
    DivUnique(x, d, q + r / d, r % d);
    if 0 < n && n <= r / d {
      Scale(n, r / d, d);
      assert false;
    }
  }

  lemma CancelFactor(m: int, x: int, y: int)
    requires 0 < m && m * x <= m * y
    ensures x <= y
  {
    if y + 1 <= x {
      Scale(y + 1, x, m);
      Distribute(m, y, 1);
    }
  }

  lemma Euclid(x: int, d: int)
    requires 0 < d
    ensures x == d * (x / d) + x % d && 0 <= x % d < d
  {
  }

  lemma Scale(x: int, y: int, d: int)
    requires 0 <= d && x <= y
    ensures d * x <= d * y
  {
  }

  lemma QuotientSum(x: int, y: int, d: int)
    requires 0 < d
    ensures x / d + y / d <= (x + y) / d <= x / d + y / d + 1
  {
    Euclid(x, d);
    Euclid(y, d);
    Distribute(d, x / d, y / d);
    Distribute(d, x / d + y / d, 1);
    if x % d + y % d < d {
      DivUnique(x + y, d, x / d + y / d, x % d + y % d);
    } else {
      DivUnique(x + y, d, x / d + y / d + 1, x % d + y % d - d);
    }
  }

  lemma DivUnique(x: int, d: int, q: int, r: int)
    requires 0 <= r < d && x == d * q + r
    ensures x / d == q && x % d == r
  {
    Euclid(x, d);
    var k := x / d - q;
    Distribute(d, q, k);
    if 1 <= k {
      Scale(1, k, d);
    } else if k <= -1 {
      Scale(k, -1, d);
    }
  }
}
