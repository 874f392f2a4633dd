/** Redeeming clouds: whoever burns clouds gets the same part of the pool of vBNC, rounded down, and has
    it locked. */
module CloudsConvert {
  import opened Primitives
  import opened Sums

  /** What `clouds` out of `supply` are worth in a pool; with no supply there is no answer. */
  function CanGet(pool: Balance, supply: nat, clouds: nat): Result<Balance> {
    if supply == 0 then Err(CalculationOverflow) else Ok(Min(MulDiv(pool, clouds, supply), U128_MAX))
  }

  /** Clouds are worth at most the pool, and all of them exactly the pool. */
  lemma WorthAtMostPool(pool: Balance, supply: pos, clouds: nat)
    requires clouds <= supply
    ensures CanGet(pool, supply, clouds) == Ok(MulDiv(pool, clouds, supply))
    ensures MulDiv(pool, clouds, supply) <= pool
    ensures clouds == supply ==> MulDiv(pool, clouds, supply) == pool
  {
    MulMono(clouds, supply, pool);
    DivMono(pool * clouds, supply * pool, supply);
    DivExact(pool, supply);
  }

  /** Why a conversion is refused, for somebody who has `held` clouds. */
  function RefusalOf(held: nat, supply: nat, pool: Balance, value: nat, expectedMin: nat, deposit: nat): Option<Error> {
    if held < value then Some(NotEnoughBalance)
    else if supply == 0 then Some(CalculationOverflow)
    else if CanGet(pool, supply, value).value < expectedMin then Some(LessThanExpected)
    else if CanGet(pool, supply, value).value < deposit then Some(LessThanExistentialDeposit)
    else None
  }

  /** A conversion is accepted exactly if the clouds are there and their part of the pool is neither less than
      expected nor less than the existential deposit; at either limit it is. Otherwise the error is the first that
      applies. */
  lemma Accepted(held: nat, supply: nat, pool: Balance, value: nat, expectedMin: nat, deposit: nat)
    requires held <= supply
    ensures var e := RefusalOf(held, supply, pool, value, expectedMin, deposit);
      if value <= held && 0 < supply
      then var worth := pool * value / supply;
        && (e.None? <==> expectedMin <= worth && deposit <= worth)
        && (e == Some(LessThanExpected) <==> worth < expectedMin)
        && (e == Some(LessThanExistentialDeposit) <==> expectedMin <= worth < deposit)
      else e == Some(if held < value then NotEnoughBalance else CalculationOverflow)
  {
    if value <= held && 0 < supply {
      WorthAtMostPool(pool, supply, value);
    }
  }

  /** The pool per cloud has not fallen: pool / supply <= pool' / supply', without the division. */
  predicate NoLower(pool: nat, supply: nat, pool': nat, supply': nat) {
    pool * supply' <= pool' * supply
  }

  /** A conversion rounds in favour of those who stay. */
  lemma ConversionFair(pool: nat, supply: pos, clouds: nat)
    requires clouds <= supply
    ensures var paid := MulDiv(pool, clouds, supply);
      paid <= pool && NoLower(pool, supply, pool - paid, supply - clouds)
  {
    var paid := MulDiv(pool, clouds, supply);
    MulMono(clouds, supply, pool);
    DivMono(pool * clouds, supply * pool, supply);
    DivExact(pool, supply);
    MulDivBound(pool * clouds, supply);
    Distribute(pool, supply - clouds, clouds);
    Distribute(supply, pool - paid, paid);
  }

  /** The pool and the supply after converting the amounts one after the other. */
  function AfterParts(pool: nat, supply: nat, parts: seq<nat>): (nat, nat) {
    if parts == [] then (pool, supply)
    else
      var (p, s) := AfterParts(pool, supply, parts[..|parts| - 1]);
      var x := parts[|parts| - 1];
      if s == 0 || s < x || p < MulDiv(p, x, s) then (p, s) else (p - MulDiv(p, x, s), s - x)
  }

  function Total(parts: seq<nat>): nat {
    if parts == [] then 0 else Total(parts[..|parts| - 1]) + parts[|parts| - 1]
  }

  lemma NoLowerStep(pool: nat, supply: pos, p: nat, s: pos, p': nat, s': nat)
    requires NoLower(pool, supply, p, s) && NoLower(p, s, p', s')
    ensures NoLower(pool, supply, p', s')
  {
    Chain(pool * s, p * supply, s');
    Chain(p * s', p' * s, supply);
    assert pool * s * s' == s * (pool * s') && p' * s * supply == s * (p' * supply);
    assert p * supply * s' == p * s' * supply;
    CancelFactor(s, pool * s', p' * supply);
  }

  lemma Chain(x: int, y: int, c: nat)
    requires x <= y
    ensures x * c <= y * c
  {
    MulMono(x, y, c);
  }

  /** However a conversion is split, every part finds its clouds, and those who stay are no worse off. */
  lemma {:induction false} PartsFair(pool: nat, supply: nat, parts: seq<nat>)
    requires Total(parts) <= supply
    ensures var (p, s) := AfterParts(pool, supply, parts);
      p <= pool && s == supply - Total(parts) && NoLower(pool, supply, p, s)
  {
    if parts != [] {
      var rest, x := parts[..|parts| - 1], parts[|parts| - 1];
      PartsFair(pool, supply, rest);
      var (p, s) := AfterParts(pool, supply, rest);
      if s != 0 {
        ConversionFair(p, s, x);
        NoLowerStep(pool, supply, p, s, p - MulDiv(p, x, s), s - x);
      }
    }
  }

  lemma PaidBound(pool: nat, supply: pos, p: nat, s: nat, t: nat)
    requires p <= pool && s + t == supply && NoLower(pool, supply, p, s)
    ensures pool - p <= MulDiv(pool, t, supply)
  {
    Distribute(pool, s, t);
    Distribute(supply, p, pool - p);
    DivMono(supply * (pool - p), pool * t, supply);
    DivExact(pool - p, supply);
  }

  /** Splitting a conversion into any parts never pays more than converting at once. */
  lemma SplittingNeverPays(pool: nat, supply: pos, parts: seq<nat>)
    requires Total(parts) <= supply
    ensures pool - AfterParts(pool, supply, parts).0 <= MulDiv(pool, Total(parts), supply)
  {
    var (p, s) := AfterParts(pool, supply, parts);
    PartsFair(pool, supply, parts);
    PaidBound(pool, supply, p, s, Total(parts));
  }

  // ---- The pallet ----------------------------------------------------------------------

  type Ledger = map<Account, Balance>

  function HoldingTerm(ledger: Ledger): Account -> int {
    u => Get(ledger, u, 0)
  }

  /** The issuance is what all accounts hold. */
  ghost predicate Issued(ledger: Ledger, supply: nat) {
    supply == Sum(ledger.Keys, HoldingTerm(ledger))
  }

  /** Nobody holds more than there is, and burning keeps the issuance right. */
  lemma Burn(ledger: Ledger, supply: nat, who: Account, amount: nat)
    requires Issued(ledger, supply) && amount <= Get(ledger, who, 0)
    ensures amount <= supply && Issued(ledger[who := Get(ledger, who, 0) - amount], supply - amount)
  {
    var f, ledger' := HoldingTerm(ledger), ledger[who := Get(ledger, who, 0) - amount];
    if who in ledger {
      SumTerm(ledger.Keys, f, who);
    } else {
      SumNonNeg(ledger.Keys, f);
    }
    SumUpdate(ledger.Keys, f, ledger'.Keys, HoldingTerm(ledger'), who);
  }

  class Clouds {
    const poolAccount: Account
    const existentialDeposit: nat

    var clouds: Ledger
    var cloudSupply: nat
    var vbnc: Ledger

    ghost predicate Valid()
      reads `clouds, `cloudSupply
    {
      Issued(clouds, cloudSupply)
    }

    function Pool(): Balance
      reads `vbnc
    {
      Get(vbnc, poolAccount, 0)
    }

    constructor (pool: Account, deposit: nat, cloudHoldings: Ledger, supply: nat, vbncHoldings: Ledger)
      requires Issued(cloudHoldings, supply)
      ensures Valid() && poolAccount == pool && clouds == cloudHoldings && vbnc == vbncHoldings
    {
      poolAccount, existentialDeposit := pool, deposit;
      clouds, cloudSupply, vbnc := cloudHoldings, supply, vbncHoldings;
    }

    /** Why a conversion is refused before anything moves. */
    function Refusal(who: Account, value: nat, expectedMin: nat): Option<Error>
      reads this
    {
      RefusalOf(Get(clouds, who, 0), cloudSupply, Pool(), value, expectedMin, existentialDeposit)
    }

    /** Clouds are converted exactly if who has them, their part of the pool is neither less than expected nor less
        than the existential deposit, and it fits; a conversion at either limit is accepted. `lockOk` is the outcome
        of locking what is paid. The payment itself never fails for lack of funds. */
    method CloudsToVebnc(who: Account, value: nat, expectedMin: nat, lockOk: bool) returns (r: Result<Balance>)
      requires Valid() && who != poolAccount
      modifies `clouds, `cloudSupply, `vbnc
      ensures Valid()
      ensures old(Refusal(who, value, expectedMin)).Some? ==> r == Err(old(Refusal(who, value, expectedMin)).value)
      ensures old(Refusal(who, value, expectedMin)).None? ==>
        var worth := MulDiv(old(Pool()), value, old(cloudSupply));
        r == if U128_MAX < Get(old(vbnc), who, 0) + worth then Err(Overflow)
             else if !lockOk then Err(LockRefused) else Ok(worth)
      ensures r.Err? ==> clouds == old(clouds) && cloudSupply == old(cloudSupply) && vbnc == old(vbnc)
      ensures r.Ok? ==> value <= old(cloudSupply) && 0 < old(cloudSupply)
      ensures r.Ok? ==> r.value == MulDiv(old(Pool()), value, old(cloudSupply))
      ensures r.Ok? ==> expectedMin <= r.value && existentialDeposit <= r.value <= old(Pool())
      ensures r.Ok? ==> clouds == old(clouds)[who := Get(old(clouds), who, 0) - value]
      ensures r.Ok? ==> cloudSupply == old(cloudSupply) - value
      ensures r.Ok? ==> Pool() == old(Pool()) - r.value && Get(vbnc, who, 0) == Get(old(vbnc), who, 0) + r.value
      ensures r.Ok? ==> forall u :: u != who && u != poolAccount ==> Get(vbnc, u, 0) == Get(old(vbnc), u, 0)
      ensures r.Ok? ==> NoLower(old(Pool()), old(cloudSupply), Pool(), cloudSupply)
    {
      if Get(clouds, who, 0) < value {
        return Err(NotEnoughBalance);
      }
      Burn(clouds, cloudSupply, who, value);
      var amount :- CanGet(Pool(), cloudSupply, value);
      if amount < expectedMin {
        return Err(LessThanExpected);
      }
      if amount < existentialDeposit {
        return Err(LessThanExistentialDeposit);
      }
      WorthAtMostPool(Pool(), cloudSupply, value);
      ConversionFair(Pool(), cloudSupply, value);
      if Pool() < amount {
        return Err(NotEnoughBalance);
      }
      var received :- U128(Get(vbnc, who, 0) + amount);
      if !lockOk {
        return Err(LockRefused);
      }
      clouds := clouds[who := Get(clouds, who, 0) - value];
      cloudSupply := cloudSupply - value;
      vbnc := vbnc[poolAccount := Pool() - amount][who := received];
      r := Ok(amount);
    }

    /** Adds vBNC to the pool. */
    method ChargeVbnc(who: Account, amount: nat) returns (r: Result<()>)
      requires Valid() && who != poolAccount
      modifies `vbnc
      ensures Valid()
      ensures r.Err? ==> vbnc == old(vbnc) && r.error == NotEnoughBalance
      ensures r.Err? <==> Get(old(vbnc), who, 0) < amount || U128_MAX < old(Pool()) + amount
      ensures r.Ok? ==> Pool() == old(Pool()) + amount && Get(vbnc, who, 0) == Get(old(vbnc), who, 0) - amount
      ensures r.Ok? ==> forall u :: u != who && u != poolAccount ==> Get(vbnc, u, 0) == Get(old(vbnc), u, 0)
      ensures r.Ok? ==> NoLower(old(Pool()), cloudSupply, Pool(), cloudSupply)
    {
      if Get(vbnc, who, 0) < amount || U128_MAX < Pool() + amount {
        return Err(NotEnoughBalance);
      }
      Chain(Pool(), Pool() + amount, cloudSupply);
      vbnc := vbnc[who := Get(vbnc, who, 0) - amount][poolAccount := Pool() + amount];
      r := Ok(());
    }
  }
}
